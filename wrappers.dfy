/** Failure-compatible wrappers used throughout the model: an optional value
    (Python's `None` or a value) and the outcome of an operation that can raise. */
module Wrappers {

  datatype Option<+T> = None | Some(value: T) {
    function GetOr(default: T): T {
      match this
      case Some(v) => v
      case None => default
    }
  }

  datatype Result<+R, +E> = Success(value: R) | Failure(error: E)
}
