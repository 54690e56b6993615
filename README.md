# davesolar: the interaction state machine and orbit model

This project models the core of `davesolar.cc`, an animated schematic of five bodies
(Alles, Terrum, Hydrus, Zephyr, Sola) orbiting a central fire. A drawing thread
redraws every body at a rotation computed from the shared clock and a per-body phase
offset, then advances the clock by the time step. The main thread's event loop
changes the time step or the clock on key presses. It also lets the user grab a body
by clicking in its annular band and drag it to a new phase.

- `orbits.dfy` (module `Orbits`): the bodies, their radii (1, 2, 2.8284, 3.4961,
  4.03698) and periods (1, 8, 32, 128 and 512 Alles-days). It gives the rotation rule
  `phase + t / ratio * 2π` and the six markers of one frame, with Counter-Alles at
  Alles's rotation and radius −1.
- `hittest.dfy` (module `HitTest`): `avg`, the six band boundaries, and the
  pointer-down classification chain from distance to body or miss.
- `interaction.dfy` (module `Interaction`): the state (clock, time step, phase array,
  drag state, `done`) as a value. It defines the effect of each event (`Step`), of the
  loop over a queue of events (`Run`) and of the drawing thread's tick (`Tick`,
  `Ticks`), with lemmas about runs of events.
- `simulation.dfy` (module `Simulation`): class `Solar`, which holds that state as
  fields and a five-element `array<real>` of phases. It has one method per branch of the
  event dispatch that changes state (quit, key press, pointer-down, pointer motion,
  pointer-up). It also has the dispatch, the event loop, the tick and the drawing loop.
  The constructor is proved to produce `Interaction.Initial`. Every other method is
  proved to agree with `Interaction.Step`, `Run`, `Tick` or `Ticks`, and states which
  fields it changes.
- `scenarios.dfy` (module `Scenarios`): worked examples only, checked by the verifier
  against the class's contracts.
  They cover the band of a few distances, one drag of Terrum, five speed-ups from
  0.020 to 0.120, and two single steps that add 0.040. They model no part of the
  program.

Modelling choices:
- Doubles are modelled as `real`, and π as the decimal value of `M_PI`.
- The pointer's scene distance and angle are parameters of the pointer events. They
  stand for the results of the device-to-user conversion, `cpvlength` and `cpvtoangle`.
- `drag`, `drag_planet`, `oldangle` and `startphase` are never initialised in the
  source (davesolar.cc:183-186). The model assumes they start as `false`, Alles, 0
  and 0.
- A pointer-down that misses while a drag is active leaves the drag active. The source
  `continue`s before it reaches `drag = true`, and nothing else clears the flag.
- The hit-test's outer boundary is exclusive (`len >= avg(4.03698, 4.5)` is a miss),
  as the code has it.

## Model

| member | source | states |
|---|---|---|
| `Orbits.Index` | davesolar.cc:63 | each body's slot in the phase array is below 5; `BodyAt` is its inverse |
| `Orbits.BodyAt` | davesolar.cc:63 | the body at slot `i` has index `i`, so the enumeration is a bijection onto 0..4 |
| `Orbits.Radius` | davesolar.cc:89-141 | every orbit radius lies between 1 and the outer margin 4.5; the ordering is stated by `OrbitsOrdered` |
| `Orbits.Ratio` | davesolar.cc:89-141 | every period is at least one Alles-day; the ordering is stated by `OrbitsOrdered` and the nesting by `PeriodsNest` |
| `Orbits.PeriodsNest` | davesolar.cc:49-56 | Terrum takes 8 Alles orbits; Hydrus, Zephyr and Sola each take 4 orbits of the body just inside |
| `Orbits.Angle` | davesolar.cc:89-141 | at time 0 the rotation is the phase, and positive (negative) time turns forward (backward); its exact rate is stated by `FullRevolution` and `AngleAdvance` |
| `Orbits.OrbitsOrdered` | davesolar.cc:89-141 | periods are at least 1 (no division by zero); a body further out has a strictly larger radius and a strictly longer period, both directions |
| `Orbits.FullRevolution` | davesolar.cc:89-141 | advancing the clock by a body's period turns that body by exactly 2π |
| `Orbits.AngleAdvance` | davesolar.cc:89-148 | advancing the clock by `dt` turns a body by `dt / ratio * 2π`; the phase only shifts the angle |
| `Orbits.InnerTurnsFaster` | davesolar.cc:49-56 | from a common phase, after any positive time an inner body has turned strictly further than an outer one |
| `Orbits.Frame` | davesolar.cc:89-141 | six markers in draw order; each body at `phase + t / ratio * 2π` and its radius; Counter-Alles at Alles's rotation with negated radius |
| `HitTest.Avg` | davesolar.cc:152-154 | the result is equidistant from both arguments and lies between them |
| `HitTest.Boundaries` | davesolar.cc:218-223 | the six boundaries are strictly increasing, and body `b`'s band runs from boundary `Index(b)` to boundary `Index(b)+1` |
| `HitTest.OrbitInOwnBand` | davesolar.cc:218-223 | each body's orbit lies strictly inside its own band |
| `HitTest.Classify` | davesolar.cc:217-224 | miss exactly when the distance is below the first boundary or at/above the last; a hit lies in the selected body's half-open band |
| `HitTest.BandsDisjoint` | davesolar.cc:218-223 | no distance lies in two bands |
| `HitTest.ClassifyExact` | davesolar.cc:218-224 | the chain selects `b` if and only if the distance is in `b`'s band |
| `HitTest.ClassifyMonotone` | davesolar.cc:218-224 | a larger distance never selects an inner body |
| `Interaction.Initial` | davesolar.cc:58-64 | start-up: time step 0.020, clock 0, all phases 0, no drag, not done |
| `Interaction.PressKey` | davesolar.cc:199-211 | no key touches a phase or the drag state; `done` becomes set exactly when the key is `q` or it was already set; the per-key effects are stated by `TimeStepKeys`, `OtherKeys` and `KeyRun` |
| `Interaction.MovePointer` | davesolar.cc:236 | only the dragged body's phase changes, to its start phase plus the angle turned since the pointer-down |
| `Interaction.Step` | davesolar.cc:194-240 | each part of the state has one kind of event that can change it: phases only by a motion during a drag, the clock only by space, the time step only by `-`/`+`/`=`, the drag flag only by pointer-down/up, and `done` exactly by quit or `q`; the per-event effects are stated by `TimeStepKeys`, `OtherKeys`, `HitStartsDrag`, `MissChangesNothing`, `MotionWhileDragging` and `MotionIdleAndRelease` |
| `Interaction.Tick` | davesolar.cc:148 | only the clock changes, and by exactly the time step |
| `Interaction.Ticks` | davesolar.cc:71-149 | any number of ticks changes only the clock; the amount is stated by `TicksAdvance` |
| `Interaction.PressButton` | davesolar.cc:212-229 | a miss changes nothing; a hit starts a drag of the body whose band holds the distance, recording its phase and the pointer angle; phases, clock, time step and `done` never change |
| `Interaction.Run` | davesolar.cc:189-241 | the loop keeps the phase array's shape and takes no event once `done` is set |
| `Interaction.TimeStepKeys` | davesolar.cc:199-206 | `-` lowers and `+`/`=` raise only the time step, by one step, without bounds; `-` then `+` (and `+` then `-`) restore the state |
| `Interaction.OtherKeys` | davesolar.cc:194-211 | space adds one step to the clock only, whatever the time step; `q` sets only `done`, as a quit request does; other keys, frame-ready and event kinds without a branch change nothing |
| `Interaction.KeyRun` | davesolar.cc:199-211 | any run of key presses without `q` moves the time step by the net number of speed-ups and the clock by the number of spaces, times the step, and nothing else |
| `Interaction.MissChangesNothing` | davesolar.cc:218-224 | a pointer-down below `avg(0,1)` or at/above `avg(4.03698,4.5)` leaves the whole state unchanged |
| `Interaction.HitStartsDrag` | davesolar.cc:219-228 | a pointer-down in `b`'s band sets exactly `drag`, `drag_planet = b`, `oldangle` and `startphase = phase[b]` |
| `Interaction.MotionWhileDragging` | davesolar.cc:230-237 | during a drag a motion sets the dragged body's phase to `startphase + newangle - oldangle`, and changes nothing else |
| `Interaction.MotionIdleAndRelease` | davesolar.cc:230-240 | a motion without a drag changes nothing; a pointer-up clears `drag` and changes nothing else |
| `Interaction.MotionsDoNotAccumulate` | davesolar.cc:236 | two motions act like the second alone; moving back to `oldangle` restores `startphase` |
| `Interaction.DragFollowsLastAngle` | davesolar.cc:230-237 | any non-empty run of motions during a drag has the effect of its last motion alone |
| `Interaction.DragGesture` | davesolar.cc:212-240 | pointer-down in `b`'s band, motions, pointer-up: `b`'s phase turns by the last angle minus the pointer-down angle, other phases and the clock are kept, and the drag ends |
| `Interaction.ClickWithoutMotion` | davesolar.cc:212-240 | a pointer-down followed directly by a pointer-up, hit or miss, changes no phase, clock or time step, and leaves no drag active |
| `Interaction.RunAppend` | davesolar.cc:189-241 | running two queues in turn equals running their concatenation |
| `Interaction.TicksAdvance` | davesolar.cc:147-148 | `n` ticks advance only the clock, by exactly `n` time steps |
| `Interaction.TicksTurn` | davesolar.cc:89-148 | over `n` ticks every body turns by `n * time_step / ratio * 2π`, whatever its phase |
| `Interaction.TickCommutes` | davesolar.cc:148 | a tick and any event other than `-`/`+`/`=` give the same state in either order, so ticks during a drag or between single steps do not change the events' effect |
| `Interaction.TimeStepKeyThenTick` | davesolar.cc:199-206 | a time-step key and a tick do not commute: the clocks differ by exactly one step, with the sign of the key |
| `Interaction.QuitStops` | davesolar.cc:189-194 | after a quit request the loop takes no further event |
| `Simulation.Solar.constructor` | davesolar.cc:58-64 | the object starts in the initial state with a fresh five-element phase array |
| `Simulation.Solar.OnKey` | davesolar.cc:199-211 | updates the fields as `Step` does for the key, and states the change for each key |
| `Simulation.Solar.OnButtonDown` | davesolar.cc:212-229 | may not touch the phase array; agrees with `Step`; a miss changes no field, a hit starts a drag of the band's body |
| `Simulation.Solar.OnMotion` | davesolar.cc:230-237 | may change only the phase array, and only the dragged body's entry, and only during a drag |
| `Simulation.Solar.OnQuit` | davesolar.cc:194 | may change only `done`, which it sets |
| `Simulation.Solar.OnButtonUp` | davesolar.cc:238-240 | may change only `drag`, which it clears |
| `Simulation.Solar.Dispatch` | davesolar.cc:194-240 | the in-place dispatch agrees with `Step` on every event |
| `Simulation.Solar.EventLoop` | davesolar.cc:188-241 | the loop over a queue ends in `Run`'s state; it stops early only when `done` is set |
| `Simulation.Solar.Tick` | davesolar.cc:148 | only the clock changes, by the current time step |
| `Simulation.Solar.Animate` | davesolar.cc:71-149 | `n` frames: frame `k` shows the markers at time `start + k * time_step` with the unchanged phases, and the state ends as `n` ticks leave it |

## Left out

- Window and subsystem start-up and shutdown, the `die` path, surface creation, blitting
  and presenting a frame (davesolar.cc:23-45, 156-181, 195-198, 243-247): windowing
  I/O. A frame-ready event is modelled as leaving the state unchanged.
- The drawing thread, its 20 ms sleep, the frame-ready signal and the final `detach`
  (davesolar.cc:143-147, 179, 243): concurrency. The tick is a sequential method, and
  `Animate` runs a bounded number of frames with no event in between. The races between
  the two threads on the clock and the phases are not modelled.
- The device-to-user conversion, `cpvlength` and `cpvtoangle` (davesolar.cc:215-217,
  226, 233-235): foreign calls involving square roots and `atan2`. Their results are
  parameters of the pointer events.
- `cos`/`sin` rasterisation, arc drawing, the Central Fire star and the colours
  (davesolar.cc:73-87, 93-140): drawing and floating-point trigonometry. A frame is
  modelled as the rotation and signed radius of each marker.
- IEEE double rounding: all arithmetic is exact over `real`. For example,
  `avg(2, 2.8284)` is exactly 2.4142.
- The result of the blocking event wait is not checked (davesolar.cc:192). When the wait
  fails, the source dispatches on an uninitialised event. The model assumes every wait
  delivers a well-formed event, so `Simulation.Solar.EventLoop` and `Interaction.Run`
  say nothing about a failed wait.
- Event kinds that the dispatch has no branch for (key releases, window, wheel and text
  events) are modelled by the single event `Ignored`, which changes nothing. Their
  contents are not modelled.
- The main loop's unbounded wait for events is modelled over a finite queue
  (`Simulation.Solar.EventLoop`). The drawing loop, which never ends in the source, is
  modelled for a given number of frames.
