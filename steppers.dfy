/**
 * One stepper-motor axis driven through a STEP/DIR driver (A4988, DRV8825 style):
 * the pin assignment, the set-up sequence, the pulse protocol of `step` and the
 * release of the enable line on `shutdown`.
 *
 * The inter-pulse `time.sleep(step_delay)` only paces the pulses; it leaves no mark
 * on the trace and is not modelled (the delay is kept as a field).
 */
module Steppers {
  import opened Wrappers
  import opened Numbers
  import opened Gpio

  /** STEP and DIR pins of a driver, and its optional ENABLE pin (BCM numbers). */
  datatype StepperPins = StepperPins(step: int, direction: int, enable: Option<int>)

  /** Constructing a stepper without the GPIO library raises this. */
  datatype StepperError = HardwareUnavailable

  /** The pins a stepper sets up as outputs. */
  function PinSet(pins: StepperPins): set<int> {
    {pins.step, pins.direction} + (if pins.enable.Some? then {pins.enable.value} else {})
  }

  /** The calls of the constructor: numbering mode, the outputs, enable driven LOW. */
  function SetupEvents(pins: StepperPins): seq<Event> {
    [SetModeBcm, SetupOutput(pins.step), SetupOutput(pins.direction)] +
    (if pins.enable.Some? then [SetupOutput(pins.enable.value), Output(pins.enable.value, Low)] else [])
  }

  /** `n` step pulses, each a HIGH then a LOW on `pin`. */
  function Pulses(pin: int, n: nat): seq<Event> {
    if n == 0 then [] else Pulses(pin, n - 1) + [Output(pin, High), Output(pin, Low)]
  }

  function DirectionLevel(steps: int): Level {
    if steps > 0 then High else Low
  }

  /** What `step(steps)` writes when every pin is set up: the direction, then |steps| pulses. */
  function StepEvents(pins: StepperPins, steps: int): seq<Event> {
    [Output(pins.direction, DirectionLevel(steps))] + Pulses(pins.step, Abs(steps))
  }

  /** Whether `step(steps)` completes, given the channels set up as outputs. */
  predicate StepSucceeds(pins: StepperPins, steps: int, outputs: set<int>) {
    pins.direction in outputs && (steps == 0 || pins.step in outputs)
  }

  /**
   * What `step(steps)` writes given the channels set up as outputs: it stops at the
   * first write the library refuses, after the direction write when only the STEP pin
   * is missing.
   */
  function StepAttempt(pins: StepperPins, steps: int, outputs: set<int>): seq<Event> {
    if StepSucceeds(pins, steps, outputs) then StepEvents(pins, steps)
    else if pins.direction in outputs then [Output(pins.direction, DirectionLevel(steps))]
    else []
  }

  /** What `shutdown()` writes given the channels set up as outputs. */
  function ShutdownAttempt(pins: StepperPins, outputs: set<int>): seq<Event> {
    if pins.enable.Some? && pins.enable.value in outputs then [Output(pins.enable.value, High)] else []
  }

  predicate ShutdownSucceeds(pins: StepperPins, outputs: set<int>) {
    pins.enable.None? || pins.enable.value in outputs
  }

  class Stepper {
    const pins: StepperPins
    /** Seconds slept after each pulse; pacing only. */
    const stepDelay: real
    const io: Capability

    /** The body of `Stepper.__init__` once the library is known to be present. */
    constructor (pins: StepperPins, stepDelay: real, io: Capability)
      modifies io
      ensures this.pins == pins && this.stepDelay == stepDelay && this.io == io
      ensures io.trace == old(io.trace) + SetupEvents(pins)
      ensures io.outputs == old(io.outputs) + PinSet(pins)
    {
      this.pins := pins;
      this.stepDelay := stepDelay;
      this.io := io;
      new;
      io.SetMode();
      io.Setup(pins.step);
      io.Setup(pins.direction);
      if pins.enable.Some? {
        io.Setup(pins.enable.value);
        var enabledLow := io.Output(pins.enable.value, Low);
      }
    }

    /** Every pin of this stepper is set up as an output. */
    ghost predicate Ready()
      reads io
    {
      PinSet(pins) <= io.outputs
    }

    /**
     * `step(steps)`: the direction pin, HIGH for a positive count and LOW otherwise,
     * then |steps| pulses on the STEP pin. `ok` is false where the library raised.
     */
    method Step(steps: int) returns (ok: bool)
      modifies io
      ensures io.outputs == old(io.outputs)
      ensures ok == StepSucceeds(pins, steps, old(io.outputs))
      ensures io.trace == old(io.trace) + StepAttempt(pins, steps, old(io.outputs))
      ensures old(Ready()) ==> ok && io.trace == old(io.trace) + StepEvents(pins, steps)
    {
      ok := io.Output(pins.direction, DirectionLevel(steps));
      if !ok {
        return;
      }
      ghost var afterDirection := io.trace;
      var i := 0;
      while i < Abs(steps)
        invariant 0 <= i <= Abs(steps)
        invariant ok
        invariant io.outputs == old(io.outputs)
        invariant pins.direction in io.outputs
        invariant i > 0 ==> pins.step in io.outputs
        invariant io.trace == afterDirection + Pulses(pins.step, i)
      {
        ok := io.Output(pins.step, High);
        if ok {
          ok := io.Output(pins.step, Low);
        }
        if !ok {
          return;
        }
        i := i + 1;
      }
    }

    /** `shutdown()`: the enable pin, when there is one, goes HIGH; nothing else. */
    method Shutdown() returns (ok: bool)
      modifies io
      ensures io.outputs == old(io.outputs)
      ensures ok == ShutdownSucceeds(pins, old(io.outputs))
      ensures io.trace == old(io.trace) + ShutdownAttempt(pins, old(io.outputs))
    {
      ok := true;
      if pins.enable.Some? {
        ok := io.Output(pins.enable.value, High);
      }
    }
  }

  /**
   * `Stepper(pins, step_delay)`: fails with HardwareUnavailable when the library is
   * missing, and otherwise builds a stepper and runs its set-up sequence.
   */
  method NewStepper(pins: StepperPins, stepDelay: real, gpio: Capability?)
    returns (r: Result<Stepper, StepperError>)
    modifies gpio
    ensures r.Err? <==> gpio == null
    ensures r.Err? ==> r.error == HardwareUnavailable
    ensures r.Ok? ==> fresh(r.value) && r.value.pins == pins && r.value.stepDelay == stepDelay && r.value.io == gpio
    ensures gpio != null ==> gpio.trace == old(gpio.trace) + SetupEvents(pins)
    ensures gpio != null ==> gpio.outputs == old(gpio.outputs) + PinSet(pins)
  {
    if gpio == null {
      return Err(HardwareUnavailable);
    }
    var s := new Stepper(pins, stepDelay, gpio);
    return Ok(s);
  }

  /**
   * Set-up selects BCM numbering first and configures STEP, then DIR; with an enable
   * pin it configures it and drives it LOW as the last call, and without one it
   * writes no pin at all.
   */
  lemma SetupShape(pins: StepperPins)
    ensures |SetupEvents(pins)| >= 3 && SetupEvents(pins)[0] == SetModeBcm
    ensures SetupEvents(pins)[1] == SetupOutput(pins.step) && SetupEvents(pins)[2] == SetupOutput(pins.direction)
    ensures pins.enable.Some? ==>
      |SetupEvents(pins)| == 5 && SetupEvents(pins)[3] == SetupOutput(pins.enable.value) &&
      SetupEvents(pins)[4] == Output(pins.enable.value, Low)
    ensures pins.enable.None? ==> forall k :: 0 <= k < |SetupEvents(pins)| ==> !SetupEvents(pins)[k].Output?
  {
  }

  /** The pulses alternate HIGH and LOW on their pin, two events per step. */
  lemma {:induction false} PulsesShape(pin: int, n: nat)
    ensures |Pulses(pin, n)| == 2 * n
    ensures forall k :: 0 <= k < |Pulses(pin, n)| ==>
      Pulses(pin, n)[k] == Output(pin, if k % 2 == 0 then High else Low)
  {
    if n > 0 {
      PulsesShape(pin, n - 1);
    }
  }

  /** A train of `n` pulses holds exactly `n` HIGH writes and `n` LOW writes. */
  lemma {:induction false} PulsesCount(pin: int, n: nat)
    ensures multiset(Pulses(pin, n))[Output(pin, High)] == n
    ensures multiset(Pulses(pin, n))[Output(pin, Low)] == n
  {
    if n > 0 {
      PulsesCount(pin, n - 1);
    }
  }

  /**
   * `step(steps)` writes the direction first (HIGH exactly when steps > 0), then
   * |steps| HIGH/LOW pairs on the STEP pin, and writes no pin other than these two.
   * `step(0)` writes only the direction, LOW.
   */
  lemma StepEventsShape(pins: StepperPins, steps: int)
    ensures |StepEvents(pins, steps)| == 1 + 2 * Abs(steps)
    ensures StepEvents(pins, steps)[0] == Output(pins.direction, if steps > 0 then High else Low)
    ensures forall k :: 1 <= k < |StepEvents(pins, steps)| ==>
      StepEvents(pins, steps)[k] == Output(pins.step, if k % 2 == 1 then High else Low)
    ensures WritesOnly(StepEvents(pins, steps), {pins.step, pins.direction})
    ensures steps == 0 ==> StepEvents(pins, steps) == [Output(pins.direction, Low)]
  {
    var p := Pulses(pins.step, Abs(steps));
    PulsesShape(pins.step, Abs(steps));
    assert StepEvents(pins, steps) == [Output(pins.direction, DirectionLevel(steps))] + p;
    forall k | 1 <= k < |StepEvents(pins, steps)|
      ensures StepEvents(pins, steps)[k] == Output(pins.step, if k % 2 == 1 then High else Low)
    {
      assert StepEvents(pins, steps)[k] == p[k - 1];
    }
  }

  /** With distinct STEP and DIR pins, `step(steps)` emits exactly |steps| rising edges on STEP. */
  lemma StepPulseCount(pins: StepperPins, steps: int)
    requires pins.step != pins.direction
    ensures multiset(StepEvents(pins, steps))[Output(pins.step, High)] == Abs(steps)
    ensures multiset(StepEvents(pins, steps))[Output(pins.step, Low)] == Abs(steps)
  {
    PulsesCount(pins.step, Abs(steps));
    assert multiset(StepEvents(pins, steps)) ==
      multiset{Output(pins.direction, DirectionLevel(steps))} + multiset(Pulses(pins.step, Abs(steps)));
  }
}
