/** Option and Result, the failure-carrying values used throughout the model. */
module Wrappers {

  /** Go's nil-able values and `(value, ok)` lookups. */
  datatype Option<+T> = None | Some(value: T) {
    function GetOr(default: T): T {
      match this
      case Some(v) => v
      case None => default
    }
  }

  /** Go's `(value, error)` pairs: exactly one of the two is meaningful. */
  datatype Result<+T, +E> = Success(value: T) | Failure(error: E)
}
