/** Optional values and results with an error, used across the turret model. */
module Wrappers {

  datatype Option<+T> = None | Some(value: T) {

    /** The wrapped value, or `default` when there is none (Python's `x or default`). */
    function GetOr(default: T): T {
      match this
      case Some(v) => v
      case None => default
    }
  }

  datatype Result<+T, +E> = Ok(value: T) | Err(error: E)
}

/** Integer helpers shared by the stepper and the aiming arithmetic. */
module Numbers {

  function Abs(x: int): nat {
    if x < 0 then -x else x
  }
}
