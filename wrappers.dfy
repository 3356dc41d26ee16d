/** Failure-compatible wrappers used throughout the model. */
module Wrappers {

  /** An optional value: the JavaScript code uses `undefined` for "absent". */
  datatype Option<+T> = None | Some(value: T)

  /** The outcome of an operation that either returns a value or throws an error. */
  datatype Result<+T, +E> = Success(value: T) | Failure(error: E)
}
