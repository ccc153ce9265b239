/** Option and Result values used across the model for JavaScript's
    null/undefined and for thrown errors. */
module Wrappers {

  /** `None` stands for JavaScript's `null` or `undefined`. */
  datatype Option<+T> = None | Some(value: T) {
    function GetOr(default: T): T {
      match this
      case Some(v) => v
      case None => default
    }
  }

  /** `Err` stands for an error thrown by an async operation. */
  datatype Result<+T, +E> = Ok(value: T) | Err(error: E)
}
