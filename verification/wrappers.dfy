/** Optional values and results with an error message, used across the model. */
module Wrappers {

  /** An optional value: a missing attribute, a record that was not found. */
  datatype Option<+T> = None | Some(value: T) {
    function GetOr(default: T): T {
      match this
      case Some(v) => v
      case None => default
    }
  }

  /** The outcome of a call that may throw: `Err` carries the thrown message. */
  datatype Result<+T, +E> = Ok(value: T) | Err(error: E)
}
