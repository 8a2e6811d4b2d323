/**
 * The pan/tilt controller: mode selection at construction, the per-frame `track`
 * (selection, aiming, dispatch) and the ordered teardown.
 *
 * In mock mode a line is printed instead of moving; the line is modelled as the
 * command it shows, appended to `printed`.
 */
module Turret {
  import opened Wrappers
  import opened Numbers
  import opened Gpio
  import opened Steppers
  import opened Aiming

  /** Placeholder wiring of the two drivers (BCM numbers). */
  const PanPins: StepperPins := StepperPins(17, 27, Some(22))
  const TiltPins: StepperPins := StepperPins(23, 24, Some(25))
  const StepDelay: real := 0.001

  /** Every pin the turret sets up. */
  function TurretPins(): set<int> {
    PinSet(PanPins) + PinSet(TiltPins)
  }

  /** What `track` decides for one frame: nothing, or the command for the best detection. */
  function Plan(ds: seq<Detection>, frame: FrameShape): Option<Command>
    requires frame.width > 0 && frame.height > 0
  {
    match Best(ds)
    case None => None
    case Some(b) => Some(Aim(ds[b].box, frame))
  }

  /** Mock mode prints a line only when the turret would move. */
  function MockLines(cmd: Command): seq<Command> {
    if cmd.pan != 0 || cmd.tilt != 0 then [cmd] else []
  }

  /**
   * Driving mode with every pin set up: pan steps by its count, then tilt by the
   * negated count (the mount's convention), each only when the count is non-zero.
   */
  function Dispatch(cmd: Command): seq<Event> {
    AxisPart(PanPins, cmd.pan) + AxisPart(TiltPins, -cmd.tilt)
  }

  /** One axis of a dispatch: its driver's `step` when the count is non-zero, else nothing. */
  function AxisPart(pins: StepperPins, steps: int): seq<Event> {
    if steps != 0 then StepEvents(pins, steps) else []
  }

  /** Whether one axis completes: a zero count does not call `step` at all. */
  predicate AxisSucceeds(pins: StepperPins, steps: int, outputs: set<int>) {
    steps == 0 || StepSucceeds(pins, steps, outputs)
  }

  /** What one axis writes given the channels set up as outputs. */
  function AxisAttempt(pins: StepperPins, steps: int, outputs: set<int>): seq<Event> {
    if steps != 0 then StepAttempt(pins, steps, outputs) else []
  }

  predicate DispatchSucceeds(cmd: Command, outputs: set<int>) {
    AxisSucceeds(PanPins, cmd.pan, outputs) && AxisSucceeds(TiltPins, -cmd.tilt, outputs)
  }

  /** Driving mode in general: a failed pan step raises before tilt is stepped. */
  function DispatchAttempt(cmd: Command, outputs: set<int>): seq<Event> {
    if !AxisSucceeds(PanPins, cmd.pan, outputs) then AxisAttempt(PanPins, cmd.pan, outputs)
    else AxisAttempt(PanPins, cmd.pan, outputs) + AxisAttempt(TiltPins, -cmd.tilt, outputs)
  }

  /** The GPIO writes of `track` in a given mode, with every pin set up. */
  function TrackIo(enabled: bool, ds: seq<Detection>, frame: FrameShape): seq<Event>
    requires frame.width > 0 && frame.height > 0
  {
    match Plan(ds, frame)
    case None => []
    case Some(cmd) => if enabled then Dispatch(cmd) else []
  }

  /** The lines `track` prints in a given mode. */
  function TrackPrinted(enabled: bool, ds: seq<Detection>, frame: FrameShape): seq<Command>
    requires frame.width > 0 && frame.height > 0
  {
    match Plan(ds, frame)
    case None => []
    case Some(cmd) => if enabled then [] else MockLines(cmd)
  }

  predicate ShutdownOk(outputs: set<int>) {
    ShutdownSucceeds(PanPins, outputs) && ShutdownSucceeds(TiltPins, outputs)
  }

  /**
   * The calls of a driving-mode `shutdown`: pan's enable line, then tilt's unless
   * pan's raised, then `cleanup()` in every case (the `finally`).
   */
  function ShutdownEvents(outputs: set<int>): seq<Event> {
    var panOff := ShutdownAttempt(PanPins, outputs);
    (if ShutdownSucceeds(PanPins, outputs) then panOff + ShutdownAttempt(TiltPins, outputs) else panOff)
    + [Cleanup]
  }

  class PanTilt {
    /** Driving mode (true) or mock mode; fixed at construction. */
    const enabled: bool
    const pan: Stepper?
    const tilt: Stepper?
    /** The GPIO library, `null` where it could not be imported. */
    const io: Capability?
    /** The mock-mode lines printed so far. */
    var printed: seq<Command>

    ghost predicate Valid() {
      (pan != null <==> enabled) && (tilt != null <==> enabled) &&
      (enabled ==> io != null && pan.io == io && tilt.io == io && pan.pins == PanPins && tilt.pins == TiltPins)
    }

    /** Every pin of both drivers is set up, as after construction in driving mode. */
    ghost predicate Ready()
      reads io
    {
      enabled && io != null ==> TurretPins() <= io.outputs
    }

    /**
     * `PanTilt(enabled)`: driving mode exactly when it is requested and the library
     * is present; then both steppers are built, pan first. Otherwise nothing is touched.
     */
    constructor (requested: bool, gpio: Capability?)
      modifies gpio
      ensures enabled == (requested && gpio != null)
      ensures Valid() && io == gpio && printed == []
      ensures enabled ==> fresh(pan) && fresh(tilt)
      ensures enabled ==> gpio.trace == old(gpio.trace) + SetupEvents(PanPins) + SetupEvents(TiltPins)
      ensures enabled ==> gpio.outputs == old(gpio.outputs) + TurretPins()
      ensures !enabled && gpio != null ==> unchanged(gpio)
      ensures Ready()
    {
      var on := requested && gpio != null;
      var p: Stepper? := null;
      var t: Stepper? := null;
      if on {
        var rp := NewStepper(PanPins, StepDelay, gpio);
        p := rp.value;
        var rt := NewStepper(TiltPins, StepDelay, gpio);
        t := rt.value;
      }
      enabled := on;
      pan := p;
      tilt := t;
      io := gpio;
      printed := [];
    }

    /**
     * `track(detection_result, frame_shape)`: follow the best detection with the
     * steps `Aim` computes. `ok` is false where a GPIO write raised.
     */
    method Track(ds: seq<Detection>, frame: FrameShape) returns (ok: bool)
      requires Valid()
      requires frame.width > 0 && frame.height > 0
      modifies this`printed, io
      ensures io != null ==> io.outputs == old(io.outputs)
      ensures Plan(ds, frame).None? ==> ok && printed == old(printed) && (io != null ==> io.trace == old(io.trace))
      ensures Plan(ds, frame).Some? && !enabled ==>
        ok && printed == old(printed) + MockLines(Plan(ds, frame).value) && (io != null ==> io.trace == old(io.trace))
      ensures Plan(ds, frame).Some? && enabled ==>
        var cmd := Plan(ds, frame).value;
        printed == old(printed) &&
        ok == DispatchSucceeds(cmd, old(io.outputs)) &&
        io.trace == old(io.trace) + DispatchAttempt(cmd, old(io.outputs))
      ensures old(Ready()) ==>
        ok && printed == old(printed) + TrackPrinted(enabled, ds, frame) &&
        (io != null ==> io.trace == old(io.trace) + TrackIo(enabled, ds, frame))
    {
      ok := true;
      var best := SelectBest(ds);
      if best.None? {
        return;
      }
      var cmd := Aim(ds[best.value].box, frame);
      if !enabled {
        if cmd.pan != 0 || cmd.tilt != 0 {
          printed := printed + [cmd];
        }
        return;
      }
      assert Plan(ds, frame) == Some(cmd);
      if old(Ready()) {
        DispatchReady(cmd, io.outputs);
      }
      ok := Drive(cmd);
    }

    /** The driving-mode tail of `track`: pan by its count, then tilt by the negated count. */
    method Drive(cmd: Command) returns (ok: bool)
      requires Valid() && enabled
      modifies io
      ensures io.outputs == old(io.outputs)
      ensures ok == DispatchSucceeds(cmd, old(io.outputs))
      ensures io.trace == old(io.trace) + DispatchAttempt(cmd, old(io.outputs))
    {
      ok := Move(pan, cmd.pan);
      if ok {
        ok := Move(tilt, -cmd.tilt);
      }
    }

    /**
     * `shutdown()`: nothing in mock mode; in driving mode pan's then tilt's enable
     * line goes HIGH and `cleanup()` follows, even when an actuator raised.
     */
    method Shutdown() returns (ok: bool)
      requires Valid()
      modifies io
      ensures !enabled ==> ok && (io != null ==> unchanged(io))
      ensures enabled ==>
        ok == ShutdownOk(old(io.outputs)) &&
        io.trace == old(io.trace) + ShutdownEvents(old(io.outputs)) &&
        io.outputs == {}
    {
      if !enabled {
        return true;
      }
      ok := true;
      if pan != null {
        ok := pan.Shutdown();
      }
      if ok && tilt != null {
        ok := tilt.Shutdown();
      }
      io.Cleanup();
    }
  }

  /** One axis of `track`'s driving branch: `step` is called only for a non-zero count. */
  method Move(s: Stepper, steps: int) returns (ok: bool)
    modifies s.io
    ensures s.io.outputs == old(s.io.outputs)
    ensures ok == AxisSucceeds(s.pins, steps, old(s.io.outputs))
    ensures s.io.trace == old(s.io.trace) + AxisAttempt(s.pins, steps, old(s.io.outputs))
  {
    ok := true;
    if steps != 0 {
      ok := s.Step(steps);
    }
  }

  /** With every pin set up, dispatch cannot fail and writes exactly `Dispatch(cmd)`. */
  lemma DispatchReady(cmd: Command, outputs: set<int>)
    requires TurretPins() <= outputs
    ensures DispatchSucceeds(cmd, outputs)
    ensures DispatchAttempt(cmd, outputs) == Dispatch(cmd)
  {
  }

  /** A frame in which no detection has a category produces no GPIO write and no line. */
  lemma NoEligibleNoAction(enabled: bool, ds: seq<Detection>, frame: FrameShape)
    requires frame.width > 0 && frame.height > 0
    requires forall j :: 0 <= j < |ds| ==> !Eligible(ds[j])
    ensures Plan(ds, frame).None?
    ensures TrackIo(enabled, ds, frame) == [] && TrackPrinted(enabled, ds, frame) == []
  {
    BestNone(ds);
  }

  /** Dispatch touches only the turret's STEP and DIR pins, and writes nothing iff both counts are 0. */
  lemma DispatchPins(cmd: Command)
    ensures WritesOnly(Dispatch(cmd), {17, 27, 23, 24})
    ensures Dispatch(cmd) == [] <==> cmd.pan == 0 && cmd.tilt == 0
  {
    StepEventsShape(PanPins, cmd.pan);
    StepEventsShape(TiltPins, -cmd.tilt);
    var panPart := AxisPart(PanPins, cmd.pan);
    var tiltPart := AxisPart(TiltPins, -cmd.tilt);
    assert Dispatch(cmd) == panPart + tiltPart;
  }

  /**
   * Pan is dispatched before tilt: every write to a pan pin comes before every write
   * to a tilt pin. Pan's DIR pin gets pan's own sign, tilt's DIR pin the negated sign.
   */
  lemma DispatchOrder(cmd: Command)
    ensures forall i, j ::
      0 <= i < |Dispatch(cmd)| && 0 <= j < |Dispatch(cmd)| &&
      Dispatch(cmd)[i].Output? && Dispatch(cmd)[i].pin in {17, 27} &&
      Dispatch(cmd)[j].Output? && Dispatch(cmd)[j].pin in {23, 24}
      ==> i < j
    ensures cmd.pan != 0 ==> Dispatch(cmd)[0] == Output(27, if cmd.pan > 0 then High else Low)
    ensures cmd.tilt != 0 ==>
      var first := if cmd.pan != 0 then 1 + 2 * Abs(cmd.pan) else 0;
      first < |Dispatch(cmd)| && Dispatch(cmd)[first] == Output(24, if cmd.tilt < 0 then High else Low)
  {
    StepEventsShape(PanPins, cmd.pan);
    StepEventsShape(TiltPins, -cmd.tilt);
    var panPart := AxisPart(PanPins, cmd.pan);
    var tiltPart := AxisPart(TiltPins, -cmd.tilt);
    assert Dispatch(cmd) == panPart + tiltPart;
    assert WritesOnly(panPart, {17, 27});
    assert WritesOnly(tiltPart, {23, 24});
    assert |panPart| == if cmd.pan != 0 then 1 + 2 * Abs(cmd.pan) else 0;
  }

  /** Each axis receives exactly |count| rising edges on its STEP pin. */
  lemma DispatchPulses(cmd: Command)
    ensures multiset(Dispatch(cmd))[Output(17, High)] == Abs(cmd.pan)
    ensures multiset(Dispatch(cmd))[Output(23, High)] == Abs(cmd.tilt)
  {
    AxisPulses(PanPins, cmd.pan, 23);
    AxisPulses(TiltPins, -cmd.tilt, 17);
    DispatchCount(cmd, Output(17, High), Abs(cmd.pan), 0);
    DispatchCount(cmd, Output(23, High), 0, Abs(cmd.tilt));
  }

  lemma DispatchCount(cmd: Command, e: Event, pans: nat, tilts: nat)
    requires multiset(AxisPart(PanPins, cmd.pan))[e] == pans
    requires multiset(AxisPart(TiltPins, -cmd.tilt))[e] == tilts
    ensures multiset(Dispatch(cmd))[e] == pans + tilts
  {
    ConcatCount(AxisPart(PanPins, cmd.pan), AxisPart(TiltPins, -cmd.tilt), e);
  }

  lemma ConcatCount(a: seq<Event>, b: seq<Event>, e: Event)
    ensures multiset(a + b)[e] == multiset(a)[e] + multiset(b)[e]
  {
    assert multiset(a + b) == multiset(a) + multiset(b);
  }

  /** One axis' share of a dispatch: |steps| rising edges on its STEP pin, none on `other`. */
  lemma AxisPulses(pins: StepperPins, steps: int, other: int)
    requires pins.step != pins.direction && other != pins.step && other != pins.direction
    ensures multiset(AxisPart(pins, steps))[Output(pins.step, High)] == Abs(steps)
    ensures multiset(AxisPart(pins, steps))[Output(other, High)] == 0
  {
    if steps != 0 {
      StepPulseCount(pins, steps);
      StepEventsShape(pins, steps);
      NotWritten(StepEvents(pins, steps), {pins.step, pins.direction}, Output(other, High));
    }
  }

  lemma NotWritten(t: seq<Event>, pins: set<int>, e: Event)
    requires WritesOnly(t, pins) && e.Output? && e.pin !in pins
    ensures multiset(t)[e] == 0
  {
    assert e !in t;
  }

  /**
   * A driving-mode shutdown issues `cleanup()` exactly once, as its last call, and
   * writes no pin but the two enable pins, each HIGH.
   */
  lemma ShutdownCleansUpOnce(outputs: set<int>)
    ensures |ShutdownEvents(outputs)| > 0 && ShutdownEvents(outputs)[|ShutdownEvents(outputs)| - 1] == Cleanup
    ensures multiset(ShutdownEvents(outputs))[Cleanup] == 1
    ensures forall k :: 0 <= k < |ShutdownEvents(outputs)| - 1 ==>
      ShutdownEvents(outputs)[k] in {Output(22, High), Output(25, High)}
  {
  }

  /**
   * The first shutdown after construction succeeds: enable HIGH on pan, then on tilt,
   * then `cleanup()`. A second one raises, because `cleanup()` released the enable
   * pins, and performs only `cleanup()` again.
   */
  lemma ShutdownTwice(outputs: set<int>)
    requires TurretPins() <= outputs
    ensures ShutdownOk(outputs)
    ensures ShutdownEvents(outputs) == [Output(22, High), Output(25, High), Cleanup]
    ensures !ShutdownOk({}) && ShutdownEvents({}) == [Cleanup]
  {
  }

  /** On a 640x480 frame, a lone detection at (500, 200) of size 40x40 pans +5 and does not tilt. */
  lemma TrackOffCentre(c: Category)
    requires c.score.GetOr(0.0) >= 0.0
    ensures var ds := [Detection(BoundingBox(500, 200, 40, 40), [c])];
      Plan(ds, FrameShape(480, 640)) == Some(Command(5, 0)) &&
      TrackIo(true, ds, FrameShape(480, 640)) == StepEvents(PanPins, 5) &&
      TrackPrinted(false, ds, FrameShape(480, 640)) == [Command(5, 0)]
  {
    var ds := [Detection(BoundingBox(500, 200, 40, 40), [c])];
    assert ds[..0] == [];
    assert Scan(ds) == (Some(0), Score(ds[0]));
    AimOffCentre();
  }

  /** The same frame with the box at (300, 200) is deadzoned on both axes: no write, no line. */
  lemma TrackCentred(c: Category)
    requires c.score.GetOr(0.0) >= 0.0
    ensures var ds := [Detection(BoundingBox(300, 200, 40, 40), [c])];
      TrackIo(true, ds, FrameShape(480, 640)) == [] &&
      TrackPrinted(false, ds, FrameShape(480, 640)) == []
  {
    var ds := [Detection(BoundingBox(300, 200, 40, 40), [c])];
    assert ds[..0] == [];
    assert Scan(ds) == (Some(0), Score(ds[0]));
    AimCentred();
  }
}
