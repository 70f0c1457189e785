/** Failure-carrying datatypes used throughout the model. */
module Wrappers {

  /** A Go pointer that may be nil, or a value that may be absent. */
  datatype Option<+T> = None | Some(value: T) {
    function GetOr(default: T): T {
      match this
      case Some(v) => v
      case None => default
    }
  }

  /** A Go `(value, error)` pair in which exactly one side is meaningful. */
  datatype Result<+T, +E> = Success(value: T) | Failure(error: E)

  /** A Go function that returns only an `error`: nil is `Pass`. */
  datatype Outcome<+E> = Pass | Fail(error: E)
}
