/** Failure-compatible wrappers used to turn the exceptions of the program
    into values. */
module Wrappers {

  /** A value that may be missing: here, the outcome of loading one audio asset. */
  datatype Option<+T> = None | Some(value: T)

  /** A computation that either produces a value or stops with an error. */
  datatype Result<+T, +E> = Success(value: T) | Failure(error: E)
}
