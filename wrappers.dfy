/** Failure-compatible wrappers shared by every module of the model. */
module Wrappers {

  /** A value that may be missing: Python's `None` or a value. */
  datatype Option<+T> = None | Some(value: T)

  /** The outcome of a call that can raise: a value or the exception it raised. */
  datatype Result<+T, +E> = Success(value: T) | Failure(error: E)
}
