/**
 * The Raspberry Pi GPIO library, reduced to the calls the turret makes.
 *
 * The library is a process-wide module that may be missing (the import fails on a
 * machine that is not a Pi). Here it is an explicit capability object: callers get a
 * `Capability?`, and `null` stands for "not available". Every call the library accepts
 * is appended to `trace`, so the stepper and controller contracts are statements
 * about that trace.
 *
 * `output()` follows the library's rule that a channel must have been set up as an
 * output (since the last `cleanup()`); otherwise it raises a RuntimeError, here the
 * result `false`, and nothing is written.
 */
module Gpio {

  datatype Level = Low | High

  /** One call accepted by the GPIO library. */
  datatype Event =
    | SetModeBcm
    | SetupOutput(pin: int)
    | Output(pin: int, level: Level)
    | Cleanup

  /** Every event of `t` is a pin write, and to a pin of `pins`. */
  ghost predicate WritesOnly(t: seq<Event>, pins: set<int>) {
    forall k :: 0 <= k < |t| ==> t[k].Output? && t[k].pin in pins
  }

  class Capability {
    /** The calls accepted so far, oldest first. */
    var trace: seq<Event>
    /** The channels currently set up as outputs. */
    var outputs: set<int>

    constructor ()
      ensures trace == [] && outputs == {}
    {
      trace := [];
      outputs := {};
    }

    /** `GPIO.setmode(GPIO.BCM)` */
    method SetMode()
      modifies this
      ensures trace == old(trace) + [SetModeBcm] && outputs == old(outputs)
    {
      trace := trace + [SetModeBcm];
    }

    /** `GPIO.setup(pin, GPIO.OUT)` */
    method Setup(pin: int)
      modifies this
      ensures trace == old(trace) + [SetupOutput(pin)]
      ensures outputs == old(outputs) + {pin}
    {
      trace := trace + [SetupOutput(pin)];
      outputs := outputs + {pin};
    }

    /** `GPIO.output(pin, level)`: `ok` is false where the library raises. */
    method Output(pin: int, level: Level) returns (ok: bool)
      modifies this
      ensures ok == (pin in old(outputs))
      ensures trace == old(trace) + (if ok then [Event.Output(pin, level)] else [])
      ensures outputs == old(outputs)
    {
      ok := pin in outputs;
      if ok {
        trace := trace + [Event.Output(pin, level)];
      }
    }

    /** `GPIO.cleanup()`: every channel goes back to its unconfigured state. */
    method Cleanup()
      modifies this
      ensures trace == old(trace) + [Event.Cleanup] && outputs == {}
    {
      trace := trace + [Event.Cleanup];
      outputs := {};
    }
  }
}
