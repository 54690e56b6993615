/** Hit-testing a pointer-down: the scene-space distance of the pointer from the centre
    is classified into the annular band of one body, or into a miss. */
module HitTest {
  import opened Orbits

  datatype Option<T> = None | Some(value: T)

  /** The outer margin of the hit region, half the visible scene extent. */
  const OuterMargin: real := 4.5

  /** Arithmetic mean of two numbers. */
  function Avg(a: real, b: real): (m: real)
    ensures m - a == b - m
    ensures a <= b ==> a <= m <= b
    ensures a < b ==> a < m < b
  {
    (a + b) / 2.0
  }

  /** The radius just inside body `b`: the previous body's, or 0 for the innermost. */
  function InnerNeighbour(b: Body): real
  {
    if b == Alles then 0.0 else Radius(BodyAt(Index(b) - 1))
  }

  /** The radius just outside body `b`: the next body's, or the outer margin. */
  function OuterNeighbour(b: Body): real
  {
    if b == Sola then OuterMargin else Radius(BodyAt(Index(b) + 1))
  }

  /** The band of `b` starts halfway between `b` and its inner neighbour ... */
  function Lower(b: Body): real
  {
    Avg(InnerNeighbour(b), Radius(b))
  }

  /** ... and ends, exclusive, halfway between `b` and its outer neighbour. */
  function Upper(b: Body): real
  {
    Avg(Radius(b), OuterNeighbour(b))
  }

  /** The six boundaries, inner to outer; they are strictly increasing, and the band of
      each body runs between consecutive boundaries, so the bands tile [first, last). */
  function Boundaries(): (bs: seq<real>)
    ensures |bs| == 6
    ensures forall i, j :: 0 <= i < j < 6 ==> bs[i] < bs[j]
    ensures forall b: Body :: bs[Index(b)] == Lower(b) && bs[Index(b) + 1] == Upper(b)
  {
    [Avg(0.0, 1.0), Avg(1.0, 2.0), Avg(2.0, 2.8284), Avg(2.8284, 3.4961),
     Avg(3.4961, 4.03698), Avg(4.03698, OuterMargin)]
  }

  /** Every body's band is non-empty and contains the body's own orbit. */
  lemma OrbitInOwnBand(b: Body)
    ensures Lower(b) < Radius(b) < Upper(b)
  {
  }

  /** The pointer-down classification chain: a distance below the first boundary or at
      or above the last one is a miss; otherwise the first boundary it is below picks the
      body. */
  function Classify(len: real): (r: Option<Body>)
    ensures r.None? <==> len < Lower(Alles) || len >= Upper(Sola)
    ensures r.Some? ==> Lower(r.value) <= len < Upper(r.value)
  {
    if len < Avg(0.0, 1.0) then None
    else if len < Avg(1.0, 2.0) then Some(Alles)
    else if len < Avg(2.0, 2.8284) then Some(Terrum)
    else if len < Avg(2.8284, 3.4961) then Some(Hydrus)
    else if len < Avg(3.4961, 4.03698) then Some(Zephyr)
    else if len < Avg(4.03698, OuterMargin) then Some(Sola)
    else None
  }

  /** The bands are disjoint: a distance lies in the band of at most one body, so the
      chain selects exactly the body whose band contains the distance. */
  lemma BandsDisjoint(len: real, a: Body, b: Body)
    requires Lower(a) <= len < Upper(a)
    requires Lower(b) <= len < Upper(b)
    ensures a == b
  {
  }

  /** Classification is exact: it selects `b` if and only if `len` is in `b`'s band. */
  lemma ClassifyExact(len: real, b: Body)
    ensures Classify(len) == Some(b) <==> Lower(b) <= len < Upper(b)
  {
  }

  /** Classification is monotone: a larger distance never selects an inner body. */
  lemma ClassifyMonotone(len1: real, len2: real)
    requires len1 <= len2
    requires Classify(len1).Some? && Classify(len2).Some?
    ensures Index(Classify(len1).value) <= Index(Classify(len2).value)
  {
  }
}
