/** Option and Result, the failure-carrying values used across the model. */
module Wrappers {

  /** A value that may be missing: Python's `None` or a present value. */
  datatype Option<+T> = None | Some(value: T) {
    function GetOr(default: T): T {
      match this
      case Some(v) => v
      case None => default
    }
  }

  /** The outcome of a step that either produces a value or fails with an error. */
  datatype Result<+R, +E> = Ok(value: R) | Err(error: E)
}
