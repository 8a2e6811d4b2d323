# Pan/tilt tracking turret — a Dafny model

This project models the controller of a camera turret, in `src/motor.py`, and the frame loop of `src/main.py` that drives it:

- selection of the detection to follow;
- the proportional, deadzoned step computation;
- the STEP/DIR pulse protocol of each stepper driver;
- the choice between driving mode and mock mode;
- the ordered teardown;
- the frame-rate counter;
- how the loop ends.

The Raspberry Pi GPIO library is an explicit capability object, `Gpio.Capability`:

- It records every call it accepts in a `trace`.
- It records which channels are set up as outputs.
- Like the library, it refuses (raises on) a write to a channel that is not set up as an output.
- `null` stands for "library not available".

The stepper and controller contracts are statements about that trace.

Modules, in dependency order:

- `Wrappers`: `Option`, `Result`, and `Numbers.Abs`.
- `Gpio`: the capability.
- `Steppers`: `StepperPins` and `Stepper`.
- `Aiming`: selection and step arithmetic, as functions, plus the selection loop.
- `Turret`: the `PanTilt` class.
- `Tracker`: the frame-rate counter, the loop and the teardown of `main`.

Box and frame sizes are integer pixels. The offset arithmetic uses exact reals, and `AxisStepsExact` proves that it matches the integer formula.

## Model

| member | source | states |
|---|---|---|
| Aiming.Score | src/motor.py:90 | reference definition: the first category's score, a missing score counting as 0.0; `BestIsFirstMaximum` and `ScanSpec` state the selection in its terms |
| Aiming.Scan | src/motor.py:84-93 | the `(best, best_score)` state of the selection loop; a selected index is in range and its detection has a category |
| Aiming.Best | src/motor.py:84-96 | the followed detection, if any, has at least one category |
| Aiming.SelectBest | src/motor.py:84-93 | the loop over the detections returns exactly `Best(ds)` |
| Aiming.ScanSpec | src/motor.py:84-93 | after the scan, `best_score` is the first-category score of `best` and above -1.0; no eligible detection scores more; every earlier eligible one scores strictly less; with no selection every score is at most -1.0 |
| Aiming.BestIsFirstMaximum | src/motor.py:87-93 | the followed detection has a category and the greatest score (a missing score counts as 0.0); on a tie the earliest wins |
| Aiming.BestNone | src/motor.py:84-96 | nothing is followed iff no eligible detection scores above -1.0; in particular when no detection has a category |
| Aiming.BestNoneIffNoneEligible | src/motor.py:87-96 | for non-negative scores, nothing is followed iff no detection has a category |
| Aiming.AxisSteps | src/motor.py:101-118 | reference definition of one axis: centre, offset in half-extents, `int(d*8)`, forced to 0 when `abs(d) < 0.10`; described by `AxisStepsExact`, `AxisStepsZero`, `AxisStepsSign`, `AxisStepsBound`, `AxisStepsBeyond`, `AxisStepsMirror` and `AxisStepsMonotone` |
| Aiming.Aim | src/motor.py:98-111 | reference definition: pan from the x axis against the width, tilt from the y axis against the height, each computed independently by `AxisSteps`; `AimOffCentre` and `AimCentred` are the worked examples |
| Aiming.Trunc | src/motor.py:110-111 | `int(x)` truncates toward zero: it is within 1 of `x`, on the side of zero |
| Aiming.AxisStepsExact | src/motor.py:98-118 | with `n = 2*origin + size - extent`, one axis is 0 when `10*abs(n) < extent`, and otherwise `8*n / extent` truncated toward zero |
| Aiming.AxisStepsZero | src/motor.py:110-118 | an axis is 0 iff `abs(d) < 0.10` or `int(d*8)` is 0; that is iff `8*abs(n) < extent`, so the deadzone never changes the value; at `abs(d) == 0.10` the deadzone test is false, because the comparison is strict, and truncation gives 0 anyway |
| Aiming.AxisStepsSign | src/motor.py:105-111 | steps are positive iff the centre is at least 1/8 half-frame past the middle, and negative iff it is at least that far before it |
| Aiming.AxisStepsBound | src/motor.py:101-111 | a box centred within the frame gets at most 8 steps each way |
| Aiming.AxisStepsBeyond | src/motor.py:101-111 | an axis gets more than 8 steps iff `8*abs(n) >= 9*extent`, i.e. iff the box centre lies at least 1/16 of the extent outside the frame |
| Aiming.AxisStepsMirror | src/motor.py:101-111 | mirroring the box about the middle of the axis negates its steps |
| Aiming.AxisStepsMonotone | src/motor.py:101-111 | moving a box further along an axis never decreases its steps |
| Aiming.AimOffCentre | src/motor.py:98-118 | on 640x480, a 40x40 box at (500, 200) aims pan +5, tilt 0 |
| Aiming.AimCentred | src/motor.py:98-118 | on 640x480, a 40x40 box at (300, 200) aims 0, 0 |
| Steppers.NewStepper | src/motor.py:19-32 | fails with `HardwareUnavailable` iff the library is missing; otherwise runs the set-up sequence and adds the stepper's pins to the outputs |
| Steppers.Stepper.constructor | src/motor.py:23-32 | keeps the pins and the delay; traces `SetupEvents`; sets up exactly the stepper's pins |
| Steppers.SetupShape | src/motor.py:26-32 | BCM mode, then STEP and DIR set up; with an enable pin it is set up and driven LOW last; without one no pin is written |
| Steppers.Stepper.Step | src/motor.py:34-46 | writes the direction, then the pulses; it stops at the first write the library refuses and reports it; with all pins set up it writes exactly `StepEvents` |
| Steppers.StepEventsShape | src/motor.py:34-41 | the direction is first, HIGH iff `steps > 0`; then `abs(steps)` alternating HIGH/LOW pairs on STEP; no other pin is written; `step(0)` writes only DIR LOW |
| Steppers.PulsesShape | src/motor.py:39-41 | a pulse train has two events per step, HIGH then LOW, on its pin |
| Steppers.PulsesCount | src/motor.py:39-41 | a train of `n` pulses holds exactly `n` HIGH and `n` LOW writes |
| Steppers.StepPulseCount | src/motor.py:36-41 | `step(steps)` emits exactly `abs(steps)` rising and falling edges on STEP |
| Steppers.Stepper.Shutdown | src/motor.py:48-52 | drives the enable pin HIGH iff there is one (failing if it is not set up); writes nothing else; no cleanup |
| Turret.PanTilt.constructor | src/motor.py:61-78 | driving mode iff requested and the library is present; both steppers exist iff driving, pan built first; mock mode leaves the library untouched |
| Turret.Plan | src/motor.py:84-118 | reference definition of what `track` decides: nothing when `Best` is None, else `Aim` of the best box; `NoEligibleNoAction`, `TrackOffCentre` and `TrackCentred` state it on inputs, `PanTilt.Track` ties the method to it |
| Turret.PanTilt.Track | src/motor.py:80-130 | no best detection: nothing happens; mock mode: one line iff a count is non-zero, and no GPIO call; driving mode: pan then tilt dispatch; with all pins set up it always succeeds, writing `TrackIo` and printing `TrackPrinted` |
| Turret.PanTilt.Drive | src/motor.py:126-130 | pan steps by its count, then tilt by the negated count; a failed pan step stops before tilt |
| Turret.Move | src/motor.py:127-130 | `step` is called only for a non-zero count; a zero count writes nothing and succeeds |
| Turret.DispatchReady | src/motor.py:126-130 | with every pin set up, dispatch cannot fail and writes exactly `Dispatch(cmd)` |
| Turret.NoEligibleNoAction | src/motor.py:87-96 | a frame with no categorised detection causes no GPIO write and no printed line, in either mode |
| Turret.DispatchPins | src/motor.py:126-130 | dispatch writes only the four STEP/DIR pins; it is empty iff both counts are 0 |
| Turret.DispatchOrder | src/motor.py:126-130 | every pan write precedes every tilt write; pan's DIR follows the pan sign, tilt's DIR the negated tilt sign |
| Turret.DispatchPulses | src/motor.py:126-130 | pan STEP gets `abs(pan)` rising edges and tilt STEP `abs(tilt)` |
| Turret.PanTilt.Shutdown | src/motor.py:132-143 | mock mode: no-op; driving mode: pan then tilt (tilt skipped if pan raised), then `cleanup()` in every case, leaving no channel set up |
| Turret.ShutdownCleansUpOnce | src/motor.py:136-143 | a driving-mode shutdown calls `cleanup()` exactly once, as its last call, and otherwise writes only the enable pins HIGH |
| Turret.ShutdownTwice | src/motor.py:132-143 | the first shutdown after set-up succeeds with enable 22 HIGH, enable 25 HIGH, then cleanup; a second one raises and only cleans up |
| Turret.TrackOffCentre | src/motor.py:80-130 | the (500, 200) box yields command (+5, 0): pan's step sequence in driving mode, one line in mock mode |
| Turret.TrackCentred | src/motor.py:80-130 | the (300, 200) box yields no write and no line |
| Tracker.Rate | src/main.py:90 | the recomputed rate is positive and at most 1e10; it is exactly `10 / elapsed` when `elapsed >= 1e-9`, and 1e10 below that |
| Tracker.RateExamples | src/main.py:90 | 0.5 s gives 20.0; 0 s gives the bound |
| Tracker.FpsCounter.constructor | src/main.py:60-63 | zero frames, rate 0.0, `t0` the start time |
| Tracker.FpsStep | src/main.py:87-91 | reference definition of one counter update, which `FpsCounter.Update` is proved to perform; `FpsRunFacts` states what any run of updates gives |
| Tracker.FpsCounter.Update | src/main.py:86-91 | the frame count goes up by one; on a multiple of 10 the rate becomes `Rate(t1 - t0)` and `t0` the next reading; otherwise both are unchanged |
| Tracker.FpsRunFacts | src/main.py:59-91 | after `n` updates the count is `n`; the rate is in [0, 1e10]; it is 0 with `t0` unchanged before frame 10, and positive afterwards, with `t0` the reading of the last recompute |
| Tracker.ShownSpec | src/main.py:86-93 | the rate drawn on frame `k` is the counter's rate after that frame's update |
| Tracker.TrackedFrom | src/main.py:65-99 | how many frames the loop tracks from tick `i` on; never more than the ticks left after `i`; `ProcessedSpec` connects it to `LoopExit` |
| Tracker.Processed | src/main.py:65-99 | the number of frames the whole run tracks, at most the number of ticks; `ProcessedSpec` shows it is the only count at which the loop can end |
| Tracker.ProcessedSpec | src/main.py:65-99 | the loop stops before tracking at the first failed read, or right after a frame on which ESC was polled; `Processed` and `StoppedByKey` are the only such exit |
| Tracker.RunModes | src/main.py:84 | a whole run writes no pin in mock mode and prints no line in driving mode |
| Tracker.IdleFrame | src/main.py:84 | a frame with no categorised detection adds no write and no line to the run |
| Tracker.TrackReady | src/main.py:84 | a call of `track` from the loop cannot raise and keeps every pin set up |
| Tracker.TrackTick | src/main.py:66-93 | one iteration that read a frame: tracking it, updating the counter and drawing the rate take the loop state from `n` frames to `n + 1` |
| Tracker.TrackFrames | src/main.py:65-99 | the loop ends as `LoopExit` describes; the counter, the drawn rates, the printed lines and the GPIO trace are those of the tracked frames, in order |
| Tracker.Run | src/main.py:59-103 | the log records the tracked frames, then a read failure unless ESC ended the loop, then shutdown before camera release and window teardown; in driving mode the trace ends with the enable lines and one cleanup; mock mode leaves the library untouched |
| Tracker.Session | src/main.py:57-103 | from the turret's construction: in driving mode, both set-up sequences (pan first), every tracked frame's writes, then the teardown, leaving no channel set up; in mock mode the library is never touched |

## Left out

- `time.sleep` in `Stepper.step` (src/motor.py:45-46). It only paces the pulses. The delay is kept as a field.
- The import of RPi.GPIO and the library itself (src/motor.py:5-8):
  - It is replaced by `Gpio.Capability?`, where `null` means "not importable".
  - `setmode` and `setup` never fail in the model.
  - `output` raises only on a channel that is not set up as an output.
- The text of the mock-mode line (src/motor.py:123). A line is modelled as the `Command` it shows.
- Camera capture, mirroring, colour conversion, the TFLite detector, drawing, `imshow` and `waitKey` (src/main.py:48-56, 66, 71-81, 93-95, 98):
  - Each iteration's frame, detections and polled key arrive as a `Tick`.
  - The stderr message on a failed read is the `ReadFailed` log entry.
  - The camera release and window teardown are log entries.
- The clock. Each `time.time()` reading is an input: `start`, and a tick's `t1` and `t2`.
- `parse_args`, `src/utils.py` and `src/camera.py` are not part of this model.
- IEEE-754 rounding of `dx`, `dy` and the rate. The model uses exact reals. Rounding could matter only exactly at a truncation boundary.
- Zero-size frames. The source raises ZeroDivisionError on one only when a detection is selected (src/motor.py:105). With no eligible detection, `track` returns normally before the division (src/motor.py:95-96). `Turret.Plan` and `PanTilt.Track` require positive frame sides on every call, so the model also excludes that normal return. The loop requires every frame read to have positive sides (`FramesWellShaped`), which a frame returned by a successful camera read does.
- Exceptions that escape the loop. An exception from the camera or the detector, or a GPIO write raising inside `track`, would end `main` without the shutdown, because `main` has no `try/finally`. The model's loop has no such path: with every pin set up, `track` cannot raise (`Tracker.TrackReady`).
- An endless frame source. Ticks are a finite sequence, and running out of ticks ends the loop like a failed read.

## Notes on the code

- **Shutdown is not idempotent.** `shutdown()` can be described as idempotent, but the code is not, given the library's rule that writes need a set-up channel. The first driving-mode shutdown calls `cleanup()`, which releases every channel. A second shutdown's write to pan's enable pin then raises. The `finally` still calls `cleanup()` again, and the exception propagates. `Turret.ShutdownTwice` states both calls. The end state, no channel set up, is the same after either call.
- **The deadzone never changes a result.** With gain 8, truncation already zeroes every offset below 1/8 of a half-frame, so the `abs(d) < 0.10` deadzone is subsumed by the truncation (`Aiming.AxisStepsZero`).
- **Some scores can never be selected.** Selection starts from -1.0 and needs a strictly greater score. A detection scoring -1.0 or less is never followed (`Aiming.BestNone`). Detector scores are never negative, so this cannot happen in practice (`Aiming.BestNoneIffNoneEligible`).
- **The step bound holds only inside the frame.** The bound of 8 steps per axis applies only to boxes centred within the frame (`Aiming.AxisStepsBound`). A box centred outside the frame can get more, but only once its centre is at least 1/16 of the frame outside (`Aiming.AxisStepsBeyond`).
