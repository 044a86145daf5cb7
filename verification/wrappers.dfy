/** The `Option` and `Result` datatypes shared by the parser modules. */
module Wrappers {

  /** A value that may be absent; `None` plays the part of JavaScript's NaN or `undefined`. */
  datatype Option<+T> = None | Some(value: T)

  /** The outcome of an operation that either produces a value or fails with an error. */
  datatype Result<+R, +E> = Success(value: R) | Failure(error: E)
}
