/** Failure-carrying values: PHP's nullable values and thrown exceptions. */
module Wrappers {

  /** A PHP `?T`: either a value or null. */
  datatype Option<+T> = None | Some(value: T)

  /** The outcome of a call that may throw: the value, or the exception it raises. */
  datatype Result<+R, +E> = Success(value: R) | Failure(error: E)
}
