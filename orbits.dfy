/** The kinematic model of the five-body system: the fixed orbital constants of each
    body and the rotation each one is drawn at, as a pure function of the current
    time and the body's phase offset. */
module Orbits {

  /** The bodies, in the order of the source's enumeration (inner to outer). */
  datatype Body = Alles | Terrum | Hydrus | Zephyr | Sola

  /** The decimal value of M_PI. */
  const Pi: real := 3.14159265358979323846

  /** Position of a body in the enumeration, which is also its slot in the phase array. */
  function Index(b: Body): (i: nat)
    ensures i < 5
  {
    match b
    case Alles => 0
    case Terrum => 1
    case Hydrus => 2
    case Zephyr => 3
    case Sola => 4
  }

  /** The body stored at a given slot of the phase array. */
  function BodyAt(i: nat): (b: Body)
    requires i < 5
    ensures Index(b) == i
  {
    if i == 0 then Alles
    else if i == 1 then Terrum
    else if i == 2 then Hydrus
    else if i == 3 then Zephyr
    else Sola
  }

  /** Orbital radius in scene units (the x offset of the body's arc). */
  function Radius(b: Body): (r: real)
    ensures 1.0 <= r < 4.5
  {
    match b
    case Alles => 1.0
    case Terrum => 2.0
    case Hydrus => 2.8284
    case Zephyr => 3.4961
    case Sola => 4.03698
  }

  /** Number of Alles-days per revolution of the body. */
  function Ratio(b: Body): (r: real)
    ensures r >= 1.0
  {
    match b
    case Alles => 1.0
    case Terrum => 8.0
    case Hydrus => 32.0
    case Zephyr => 128.0
    case Sola => 512.0
  }

  /** Bodies farther out have strictly larger radii and strictly longer periods,
      and every period is positive (so the angle rule never divides by zero). */
  lemma OrbitsOrdered(a: Body, b: Body)
    ensures Ratio(a) >= 1.0
    ensures Index(a) < Index(b) <==> Radius(a) < Radius(b)
    ensures Index(a) < Index(b) <==> Ratio(a) < Ratio(b)
  {
  }

  /** Each body orbits once for every 8 Alles orbits (Terrum) or every 4 orbits of the
      body just inside it (Hydrus, Zephyr, Sola). */
  lemma PeriodsNest(b: Body)
    ensures b == Terrum ==> Ratio(b) == 8.0 * Ratio(Alles)
    ensures Index(b) >= 2 ==> Ratio(b) == 4.0 * Ratio(BodyAt(Index(b) - 1))
  {
  }

  /** The rotation (in radians) at which body `b` is drawn, given its phase offset `p`
      and the current time `t`. */
  function Angle(p: real, t: real, b: Body): (a: real)
    ensures t == 0.0 ==> a == p
    ensures t > 0.0 ==> a > p
    ensures t < 0.0 ==> a < p
  {
    p + t / Ratio(b) * (2.0 * Pi)
  }

  /** Advancing the clock by a full period of `b` turns `b` exactly once around. */
  lemma FullRevolution(p: real, t: real, b: Body)
    ensures Angle(p, t + Ratio(b), b) == Angle(p, t, b) + 2.0 * Pi
  {
  }

  /** Advancing the clock by `dt` turns `b` by `dt / Ratio(b)` of a revolution, whatever
      its phase; the phase offset only shifts the angle. */
  lemma AngleAdvance(p: real, t: real, dt: real, b: Body)
    ensures Angle(p, t + dt, b) == Angle(p, t, b) + dt / Ratio(b) * (2.0 * Pi)
    ensures Angle(p, t, b) == p + Angle(0.0, t, b)
  {
  }

  /** After any positive time from a common phase, an inner body has turned through a
      strictly larger angle than an outer one. */
  lemma InnerTurnsFaster(a: Body, b: Body, t: real)
    requires Index(a) < Index(b) && t > 0.0
    ensures Angle(0.0, t, a) > Angle(0.0, t, b)
  {
  }

  /** A marker drawn by the frame generator: the rotation applied, then the signed x
      offset of the arc in the rotated frame. */
  datatype Marker = Marker(rotation: real, offset: real)

  /** Draw order of the six markers: Alles, Counter-Alles, then the outer bodies. */
  function Slot(b: Body): (k: nat)
    ensures k < 6 && k != 1
  {
    if b == Alles then 0 else Index(b) + 1
  }

  /** The markers of one frame, for the phase array `phase` at time `t`. */
  function Frame(phase: seq<real>, t: real): (m: seq<Marker>)
    requires |phase| == 5
    ensures |m| == 6
    ensures forall b: Body :: m[Slot(b)] == Marker(Angle(phase[Index(b)], t, b), Radius(b))
    ensures m[1] == Marker(m[0].rotation, -m[0].offset)
  {
    var alles := Marker(Angle(phase[0], t, Alles), Radius(Alles));
    [ alles,
      Marker(alles.rotation, -Radius(Alles)),
      Marker(Angle(phase[1], t, Terrum), Radius(Terrum)),
      Marker(Angle(phase[2], t, Hydrus), Radius(Hydrus)),
      Marker(Angle(phase[3], t, Zephyr), Radius(Zephyr)),
      Marker(Angle(phase[4], t, Sola), Radius(Sola)) ]
  }
}
