/** Failure-carrying results used throughout the model. */
module Wrappers {

  /** A value that may be absent: Python's `str | None` return values. */
  datatype Option<+T> = None | Some(value: T)

  /** A computation that either succeeds or raises an exception with a message. */
  datatype Result<+R, +E> = Success(value: R) | Failure(error: E)
}
