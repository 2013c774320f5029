/** Values that may be absent, and calls that may raise. */
module Wrappers {

  datatype Option<+T> = None | Some(value: T)

  /** A call's outcome: a value, or the exception it raised. */
  datatype Result<+T, +E> = Success(value: T) | Failure(error: E)
}
