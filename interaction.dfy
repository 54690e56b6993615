/** The interaction state machine of the main event loop, as pure functions over a
    snapshot of the simulation state: what each event does, what a run of events does,
    and what the frame generator's clock tick does. */
module Interaction {
  import opened Orbits
  import opened HitTest

  /** Amount a key press changes the time step (or, for space, the current time) by. */
  const TimeStepStep: real := 0.020

  /** Keys the event loop distinguishes. */
  datatype Key = Minus | Plus | Equals | Space | LetterQ | OtherKey

  /** Events the loop receives. A pointer position arrives already converted to its
      scene-space distance from the centre and its angle about the centre. `Ignored`
      stands for every event kind the dispatch has no branch for (key releases, window,
      wheel and text events): it falls through the whole chain. */
  datatype Event =
    | Quit
    | BlitReady
    | Ignored
    | KeyDown(key: Key)
    | MouseDown(len: real, angle: real)
    | MouseMotion(angle: real)
    | MouseUp

  /** The shared clock and phase array together with the event loop's drag state. */
  datatype State = State(
    timeStep: real,
    currentTime: real,
    phase: seq<real>,
    drag: bool,
    dragPlanet: Body,
    oldAngle: real,
    startPhase: real,
    done: bool)
  {
    /** One phase offset per body. */
    predicate Valid() { |phase| == 5 }
  }

  /** The state at start-up; the drag fields start from fixed values (no drag active). */
  function Initial(): (s: State)
    ensures s.Valid() && !s.drag && !s.done
    ensures s.timeStep == TimeStepStep && s.currentTime == 0.0
    ensures forall i :: 0 <= i < 5 ==> s.phase[i] == 0.0
  {
    State(0.020, 0.0, [0.0, 0.0, 0.0, 0.0, 0.0], false, Alles, 0.0, 0.0, false)
  }

  /** A key press: `-` slows, `+`/`=` speeds up, space steps the clock once, `q` quits. */
  function PressKey(s: State, k: Key): (r: State)
    ensures r.phase == s.phase && r.drag == s.drag && r.dragPlanet == s.dragPlanet
    ensures r.oldAngle == s.oldAngle && r.startPhase == s.startPhase
    ensures r.done <==> s.done || k == LetterQ
  {
    match k
    case Minus => s.(timeStep := s.timeStep - TimeStepStep)
    case Plus => s.(timeStep := s.timeStep + TimeStepStep)
    case Equals => s.(timeStep := s.timeStep + TimeStepStep)
    case Space => s.(currentTime := s.currentTime + TimeStepStep)
    case LetterQ => s.(done := true)
    case OtherKey => s
  }

  /** A pointer-down at distance `len` and angle `angle`: a hit starts a drag of the
      body whose band holds `len`; a miss changes nothing. */
  function PressButton(s: State, len: real, angle: real): (r: State)
    requires s.Valid()
    ensures r.Valid() && r.phase == s.phase
    ensures r.timeStep == s.timeStep && r.currentTime == s.currentTime && r.done == s.done
    ensures (len < Lower(Alles) || len >= Upper(Sola)) ==> r == s
    ensures Lower(Alles) <= len < Upper(Sola) ==>
              r.drag && Lower(r.dragPlanet) <= len < Upper(r.dragPlanet) &&
              r.oldAngle == angle && r.startPhase == s.phase[Index(r.dragPlanet)]
  {
    match Classify(len)
    case None => s
    case Some(b) => s.(dragPlanet := b, oldAngle := angle, startPhase := s.phase[Index(b)], drag := true)
  }

  /** A pointer motion during a drag: the dragged body's phase becomes its phase at the
      start of the drag plus the angle the pointer has turned since then. */
  function MovePointer(s: State, angle: real): (r: State)
    requires s.Valid()
    ensures r.Valid() && r == s.(phase := r.phase)
    ensures r.phase[Index(s.dragPlanet)] - s.startPhase == angle - s.oldAngle
    ensures forall i :: 0 <= i < 5 && i != Index(s.dragPlanet) ==> r.phase[i] == s.phase[i]
  {
    s.(phase := s.phase[Index(s.dragPlanet) := s.startPhase + angle - s.oldAngle])
  }

  /** One iteration of the event loop's dispatch. Each part of the state has exactly
      one kind of event that can change it. */
  function Step(s: State, e: Event): (r: State)
    requires s.Valid()
    ensures r.Valid()
    ensures r.phase != s.phase ==> e.MouseMotion? && s.drag
    ensures r.currentTime != s.currentTime ==> e == KeyDown(Space)
    ensures r.timeStep != s.timeStep ==> e in {KeyDown(Minus), KeyDown(Plus), KeyDown(Equals)}
    ensures r.drag != s.drag ==> e.MouseDown? || e == MouseUp
    ensures r.done <==> s.done || e == Quit || e == KeyDown(LetterQ)
  {
    match e
    case Quit => s.(done := true)
    case BlitReady => s
    case Ignored => s
    case KeyDown(k) => PressKey(s, k)
    case MouseDown(len, angle) => PressButton(s, len, angle)
    case MouseMotion(angle) => if s.drag then MovePointer(s, angle) else s
    case MouseUp => s.(drag := false)
  }

  /** The event loop over a queue of events: it stops taking events once `done` is set. */
  function Run(s: State, events: seq<Event>): (r: State)
    requires s.Valid()
    ensures r.Valid()
    ensures s.done ==> r == s
    decreases |events|
  {
    if s.done || events == [] then s else Run(Step(s, events[0]), events[1..])
  }

  /** One tick of the frame generator: the clock advances by the current time step. */
  function Tick(s: State): (r: State)
    ensures r == s.(currentTime := r.currentTime)
    ensures r.currentTime - s.currentTime == s.timeStep
  {
    s.(currentTime := s.currentTime + s.timeStep)
  }

  /** `n` ticks with no event in between. */
  function Ticks(s: State, n: nat): (r: State)
    ensures r == s.(currentTime := r.currentTime)
    decreases n
  {
    if n == 0 then s else Ticks(Tick(s), n - 1)
  }

  // ---------------------------------------------------------------------------------
  // Keyboard

  /** `-` and `+` (or `=`) change only the time step, by exactly one step each way and
      with no floor or ceiling, so they undo each other. */
  lemma TimeStepKeys(s: State)
    requires s.Valid()
    ensures Step(s, KeyDown(Minus)) == s.(timeStep := s.timeStep - TimeStepStep)
    ensures Step(s, KeyDown(Plus)) == s.(timeStep := s.timeStep + TimeStepStep)
    ensures Step(s, KeyDown(Equals)) == Step(s, KeyDown(Plus))
    ensures Step(Step(s, KeyDown(Minus)), KeyDown(Plus)) == s
    ensures Step(Step(s, KeyDown(Plus)), KeyDown(Minus)) == s
  {
  }

  /** Space advances only the current time, by one step whatever the time step is;
      `q` and a quit request set only `done`; any other key, a frame-ready event and
      an event kind without a branch change nothing. */
  lemma OtherKeys(s: State)
    requires s.Valid()
    ensures Step(s, KeyDown(Space)) == s.(currentTime := s.currentTime + TimeStepStep)
    ensures Step(s, KeyDown(LetterQ)) == s.(done := true) == Step(s, Quit)
    ensures Step(s, KeyDown(OtherKey)) == s && Step(s, BlitReady) == s && Step(s, Ignored) == s
  {
  }

  /** Net number of time-step increments in a run of key presses. */
  function NetSpeedUps(keys: seq<Key>): int
  {
    if keys == [] then 0
    else (match keys[0]
          case Minus => -1
          case Plus => 1
          case Equals => 1
          case _ => 0) + NetSpeedUps(keys[1..])
  }

  /** Number of space presses in a run of key presses. */
  function SingleSteps(keys: seq<Key>): nat
  {
    if keys == [] then 0 else (if keys[0] == Space then 1 else 0) + SingleSteps(keys[1..])
  }

  /** The key-press events for a run of keys. */
  function Presses(keys: seq<Key>): seq<Event>
  {
    seq(|keys|, i requires 0 <= i < |keys| => KeyDown(keys[i]))
  }

  /** A run of key presses without `q` moves the time step by the net number of
      speed-ups and the clock by the number of single steps, and touches nothing else. */
  lemma {:induction false} KeyRun(s: State, keys: seq<Key>)
    requires s.Valid() && !s.done && LetterQ !in keys
    ensures Run(s, Presses(keys)) ==
            s.(timeStep := s.timeStep + NetSpeedUps(keys) as real * TimeStepStep,
               currentTime := s.currentTime + SingleSteps(keys) as real * TimeStepStep)
    decreases |keys|
  {
    if keys != [] {
      var events := Presses(keys);
      assert events[1..] == Presses(keys[1..]);
      var s' := Step(s, events[0]);
      assert LetterQ !in keys[1..] by {
        forall k | k in keys[1..] ensures k != LetterQ { assert k in keys; }
      }
      KeyRun(s', keys[1..]);
    }
  }

  // ---------------------------------------------------------------------------------
  // Pointer

  /** A pointer-down outside every band changes nothing at all (a drag in progress, if
      any, stays in progress). */
  lemma MissChangesNothing(s: State, len: real, angle: real)
    requires s.Valid()
    requires len < Avg(0.0, 1.0) || len >= Avg(4.03698, OuterMargin)
    ensures Step(s, MouseDown(len, angle)) == s
  {
  }

  /** A pointer-down inside a band starts a drag of exactly that band's body, from that
      body's current phase and the pointer's angle, leaving the clock and every phase
      alone. */
  lemma HitStartsDrag(s: State, len: real, angle: real, b: Body)
    requires s.Valid()
    requires Lower(b) <= len < Upper(b)
    ensures Step(s, MouseDown(len, angle)) ==
            s.(drag := true, dragPlanet := b, oldAngle := angle, startPhase := s.phase[Index(b)])
  {
  }

  /** A pointer motion during a drag sets the dragged body's phase to its start phase
      plus the angle turned since the pointer-down, and changes nothing else. */
  lemma MotionWhileDragging(s: State, angle: real)
    requires s.Valid() && s.drag
    ensures var r := Step(s, MouseMotion(angle));
            r.phase[Index(s.dragPlanet)] == s.startPhase + angle - s.oldAngle &&
            (forall i :: 0 <= i < 5 && i != Index(s.dragPlanet) ==> r.phase[i] == s.phase[i]) &&
            r == s.(phase := r.phase)
  {
  }

  /** Without a drag, pointer motion is ignored; a pointer-up ends any drag and changes
      nothing else. */
  lemma MotionIdleAndRelease(s: State, angle: real)
    requires s.Valid()
    ensures !s.drag ==> Step(s, MouseMotion(angle)) == s
    ensures Step(s, MouseUp) == s.(drag := false)
  {
  }

  /** Motions do not accumulate: two motions in a row act like the second alone, and
      moving back to the pointer-down angle restores the start phase. */
  lemma MotionsDoNotAccumulate(s: State, a1: real, a2: real)
    requires s.Valid() && s.drag
    ensures Step(Step(s, MouseMotion(a1)), MouseMotion(a2)) == Step(s, MouseMotion(a2))
    ensures Step(s, MouseMotion(s.oldAngle)).phase[Index(s.dragPlanet)] == s.startPhase
  {
  }

  /** The motion events for a run of pointer angles. */
  function Motions(angles: seq<real>): seq<Event>
  {
    seq(|angles|, i requires 0 <= i < |angles| => MouseMotion(angles[i]))
  }

  /** However many motions a drag goes through, only the last angle matters. */
  lemma {:induction false} DragFollowsLastAngle(s: State, angles: seq<real>)
    requires s.Valid() && s.drag && !s.done && angles != []
    ensures Run(s, Motions(angles)) == Step(s, MouseMotion(angles[|angles| - 1]))
    decreases |angles|
  {
    var events := Motions(angles);
    assert events[1..] == Motions(angles[1..]);
    var s' := Step(s, events[0]);
    if |angles| > 1 {
      DragFollowsLastAngle(s', angles[1..]);
      MotionsDoNotAccumulate(s, angles[0], angles[|angles| - 1]);
    } else {
      assert events[1..] == [];
    }
  }

  /** A whole drag gesture: pointer-down in `b`'s band, any non-empty run of motions,
      pointer-up. It leaves `b`'s phase turned by the angle between the pointer-down and
      the last motion, every other phase and the clock as they were, and no drag active. */
  lemma {:induction false} DragGesture(s: State, len: real, a0: real, angles: seq<real>, b: Body)
    requires s.Valid() && !s.done && angles != []
    requires Lower(b) <= len < Upper(b)
    ensures var r := Run(s, [MouseDown(len, a0)] + Motions(angles) + [MouseUp]);
            !r.drag && r.done == s.done &&
            r.timeStep == s.timeStep && r.currentTime == s.currentTime &&
            r.phase == s.phase[Index(b) := s.phase[Index(b)] + angles[|angles| - 1] - a0]
  {
    var ms := Motions(angles);
    var events := [MouseDown(len, a0)] + ms + [MouseUp];
    HitStartsDrag(s, len, a0, b);
    var s1 := Step(s, MouseDown(len, a0));
    assert events[1..] == ms + [MouseUp];
    RunAppend(s1, ms, [MouseUp]);
    DragFollowsLastAngle(s1, angles);
    var s2 := Run(s1, ms);
    assert !s2.done;
    assert Run(s2, [MouseUp]) == Step(s2, MouseUp);
  }

  /** A click released without any motion in between changes no phase and no time,
      whether it hit a band or not, and leaves no drag active. */
  lemma ClickWithoutMotion(s: State, len: real, a0: real)
    requires s.Valid() && !s.done
    ensures var r := Run(s, [MouseDown(len, a0), MouseUp]);
            !r.drag && !r.done && r.phase == s.phase &&
            r.timeStep == s.timeStep && r.currentTime == s.currentTime
  {
    var s1 := Step(s, MouseDown(len, a0));
    assert [MouseDown(len, a0), MouseUp][1..] == [MouseUp];
    assert Run(s1, [MouseUp]) == Step(s1, MouseUp);
  }

  /** Running two queues one after the other is running their concatenation. */
  lemma {:induction false} RunAppend(s: State, xs: seq<Event>, ys: seq<Event>)
    requires s.Valid()
    ensures Run(s, xs + ys) == Run(Run(s, xs), ys)
    decreases |xs|
  {
    if !s.done && xs != [] {
      assert (xs + ys)[1..] == xs[1..] + ys;
      RunAppend(Step(s, xs[0]), xs[1..], ys);
    } else if xs == [] {
      assert xs + ys == ys;
    }
  }

  // ---------------------------------------------------------------------------------
  // Clock

  /** `n` ticks advance the clock by `n` time steps and change nothing else. */
  lemma {:induction false} TicksAdvance(s: State, n: nat)
    ensures Ticks(s, n) == s.(currentTime := s.currentTime + n as real * s.timeStep)
    decreases n
  {
    if n > 0 {
      TicksAdvance(Tick(s), n - 1);
    }
  }

  /** Over `n` ticks every body, whatever its phase `p`, turns by `n * timeStep / Ratio(b)`
      of a revolution. */
  lemma TicksTurn(s: State, n: nat, p: real, b: Body)
    ensures Angle(p, Ticks(s, n).currentTime, b) ==
            Angle(p, s.currentTime, b) + n as real * s.timeStep / Ratio(b) * (2.0 * Pi)
  {
    TicksAdvance(s, n);
    AngleAdvance(p, s.currentTime, n as real * s.timeStep, b);
  }

  /** A tick of the drawing thread and any event other than a time-step key give the
      same state in either order, so ticks arriving during a drag or between single
      steps do not change what the events do. */
  lemma TickCommutes(s: State, e: Event)
    requires s.Valid()
    requires e !in {KeyDown(Minus), KeyDown(Plus), KeyDown(Equals)}
    ensures Step(Tick(s), e) == Tick(Step(s, e))
  {
  }

  /** A time-step key and a tick do not commute: the tick after the key uses the new
      step, the tick before it the old one. */
  lemma TimeStepKeyThenTick(s: State, k: Key)
    requires s.Valid() && k in {Minus, Plus, Equals}
    ensures Tick(Step(s, KeyDown(k))).currentTime - Step(Tick(s), KeyDown(k)).currentTime
            == (if k == Minus then -TimeStepStep else TimeStepStep)
  {
  }

  /** After a quit, further events are not taken. */
  lemma {:induction false} QuitStops(s: State, events: seq<Event>)
    requires s.Valid() && !s.done
    ensures Run(s, [Quit] + events) == s.(done := true)
  {
    assert ([Quit] + events)[1..] == events;
  }
}
