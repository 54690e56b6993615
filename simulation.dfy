/** The program's mutable state as it is updated in place: the shared clock and phase
    array (globals written by both threads) and the event loop's drag state and `done`
    flag (locals of the main loop). Each handler is proved to do what the pure state
    machine in module Interaction says. */
module Simulation {
  import opened Orbits
  import opened HitTest
  import opened Interaction

  class Solar {
    var timeStep: real
    var currentTime: real
    /** The per-body phase offsets, in radians, indexed by Index(body). */
    const phase: array<real>
    var drag: bool
    var dragPlanet: Body
    var oldAngle: real
    var startPhase: real
    var done: bool

    ghost predicate Valid()
      reads this
    {
      phase.Length == 5
    }

    /** The abstract value of the object. */
    ghost function Snapshot(): (s: State)
      reads this, phase
      requires Valid()
      ensures s.Valid()
    {
      State(timeStep, currentTime, phase[..], drag, dragPlanet, oldAngle, startPhase, done)
    }

    /** Start-up: time step one step, clock at zero, every phase zero, no drag. */
    constructor ()
      ensures Valid() && fresh(phase)
      ensures Snapshot() == Initial()
    {
      timeStep := 0.020;
      currentTime := 0.0;
      phase := new real[5] [0.0, 0.0, 0.0, 0.0, 0.0];
      drag := false;
      dragPlanet := Alles;
      oldAngle := 0.0;
      startPhase := 0.0;
      done := false;
    }

    /** A key press. */
    method OnKey(k: Key)
      requires Valid()
      modifies this
      ensures Valid() && Snapshot() == Step(old(Snapshot()), KeyDown(k))
      ensures k == Minus ==> timeStep == old(timeStep) - TimeStepStep
      ensures k in {Plus, Equals} ==> timeStep == old(timeStep) + TimeStepStep
      ensures k == Space ==> currentTime == old(currentTime) + TimeStepStep && timeStep == old(timeStep)
      ensures k == LetterQ ==> done
      ensures k == OtherKey ==> unchanged(this)
    {
      if k == Minus {
        timeStep := timeStep - TimeStepStep;
      } else if k == Plus || k == Equals {
        timeStep := timeStep + TimeStepStep;
      } else if k == Space {
        currentTime := currentTime + TimeStepStep;
      } else if k == LetterQ {
        done := true;
      }
    }

    /** A pointer-down at scene distance `len` from the centre and pointer angle `angle`.
        The phase array is not in the frame: no pointer-down changes a phase. */
    method OnButtonDown(len: real, angle: real)
      requires Valid()
      modifies this
      ensures Valid() && Snapshot() == Step(old(Snapshot()), MouseDown(len, angle))
      ensures timeStep == old(timeStep) && currentTime == old(currentTime) && done == old(done)
      ensures (len < Lower(Alles) || len >= Upper(Sola)) ==> unchanged(this)
      ensures Lower(Alles) <= len < Upper(Sola) ==>
                drag && Lower(dragPlanet) <= len < Upper(dragPlanet) &&
                oldAngle == angle && startPhase == phase[Index(dragPlanet)]
    {
      ghost var before := Snapshot();
      var hit := Classify(len);
      if hit.None? {
        return;
      }
      dragPlanet := hit.value;
      oldAngle := angle;
      startPhase := phase[Index(dragPlanet)];
      drag := true;
      assert Snapshot() == PressButton(before, len, angle);
    }

    /** A pointer motion to pointer angle `angle`. Only the phase array may change. */
    method OnMotion(angle: real)
      requires Valid()
      modifies phase
      ensures Valid() && Snapshot() == Step(old(Snapshot()), MouseMotion(angle))
      ensures !drag ==> unchanged(phase)
      ensures drag ==> phase[Index(dragPlanet)] == startPhase + angle - oldAngle
      ensures forall i :: 0 <= i < 5 && i != Index(dragPlanet) ==> phase[i] == old(phase[i])
    {
      if drag {
        phase[Index(dragPlanet)] := startPhase + angle - oldAngle;
      }
    }

    /** A quit request ends the loop. */
    method OnQuit()
      requires Valid()
      modifies this`done
      ensures Valid() && Snapshot() == Step(old(Snapshot()), Quit)
      ensures done
    {
      done := true;
    }

    /** A pointer-up ends any drag. */
    method OnButtonUp()
      requires Valid()
      modifies this`drag
      ensures Valid() && Snapshot() == Step(old(Snapshot()), MouseUp)
      ensures !drag
    {
      drag := false;
    }

    /** One pass of the event loop's dispatch. A frame-ready event only presents the
        frame, and an event kind without a branch falls through: both leave the state
        alone. */
    method Dispatch(e: Event)
      requires Valid()
      modifies this, phase
      ensures Valid() && Snapshot() == Step(old(Snapshot()), e)
    {
      match e
      case Quit => OnQuit();
      case BlitReady =>
      case Ignored =>
      case KeyDown(k) => OnKey(k);
      case MouseDown(len, angle) => OnButtonDown(len, angle);
      case MouseMotion(angle) => OnMotion(angle);
      case MouseUp => OnButtonUp();
    }

    /** The main loop, fed from a finite queue: it takes events until `done` is set or
        the queue runs out, and reports how many it took. */
    method EventLoop(events: seq<Event>) returns (taken: nat)
      requires Valid()
      modifies this, phase
      ensures Valid() && Snapshot() == Run(old(Snapshot()), events)
      ensures taken <= |events|
      ensures taken < |events| ==> done
      ensures old(done) ==> taken == 0
    {
      taken := 0;
      while taken < |events| && !done
        invariant Valid()
        invariant taken <= |events|
        invariant old(done) ==> taken == 0
        invariant taken == 0 ==> done == old(done)
        invariant Run(Snapshot(), events[taken..]) == Run(old(Snapshot()), events)
      {
        assert events[taken..][1..] == events[taken + 1..];
        Dispatch(events[taken]);
        taken := taken + 1;
      }
    }

    /** The frame generator's clock advance after each frame. */
    method Tick()
      requires Valid()
      modifies this`currentTime
      ensures Valid() && Snapshot() == Interaction.Tick(old(Snapshot()))
      ensures currentTime == old(currentTime) + timeStep
    {
      currentTime := currentTime + timeStep;
    }

    /** The frame generator's loop, run for `frames` frames with no event in between:
        each frame is drawn from the current clock and phases, then the clock ticks. */
    method Animate(frames: nat) returns (drawn: seq<seq<Marker>>)
      requires Valid()
      modifies this`currentTime
      ensures Valid() && Snapshot() == Ticks(old(Snapshot()), frames)
      ensures |drawn| == frames
      ensures forall k :: 0 <= k < frames ==>
                drawn[k] == Frame(phase[..], ClockAfter(old(currentTime), timeStep, k))
    {
      ghost var phases, start := phase[..], currentTime;
      drawn := [];
      var n := 0;
      while n < frames
        invariant n <= frames && |drawn| == n
        invariant phase[..] == phases
        invariant currentTime == ClockAfter(start, timeStep, n)
        invariant forall k :: 0 <= k < n ==> drawn[k] == Frame(phases, ClockAfter(start, timeStep, k))
      {
        drawn := drawn + [Frame(phase[..], currentTime)];
        Tick();
        n := n + 1;
      }
      TicksAdvance(old(Snapshot()), frames);
    }
  }

  /** The clock after `n` ticks of `timeStep` from `start`. */
  function ClockAfter(start: real, timeStep: real, n: nat): real
  {
    start + n as real * timeStep
  }
}
