/** Failure-compatible wrappers used throughout the model. */
module Wrappers {

  /** A PHP value that may be `null`. */
  datatype Option<+T> = None | Some(value: T)

  /** The outcome of an operation that either returns a value or throws. */
  datatype Result<+T, +E> = Success(value: T) | Failure(error: E)
}
