/** Failure-carrying values used throughout the model. A JavaScript exception
    is represented by its `message`, the only part of an error the system reads. */
module Wrappers {

  datatype Option<+T> = None | Some(value: T) {
    function GetOr(default: T): T {
      match this
      case Some(v) => v
      case None => default
    }
  }

  /** The value of a call that either returns `value` or throws an error whose
      message is `message`. */
  datatype Result<+T> = Ok(value: T) | Err(message: string)

  /** The value of a call that returns nothing or throws. */
  datatype Outcome = Pass | Fail(message: string)
}
