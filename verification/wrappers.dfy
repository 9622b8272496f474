/** Failure-compatible wrappers used across the model. */
module Wrappers {

  /** An optional value: `null`/`undefined` in the original code. */
  datatype Option<+T> = None | Some(value: T)

  /** The outcome of an operation that may fail (a rejected promise in the original code). */
  datatype Result<+R, +E> = Success(value: R) | Failure(error: E)
}
