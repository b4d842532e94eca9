/** Ruby's `nil` and the application's error paths, as values. */
module Wrappers {

  /** A value that may be `nil`. */
  datatype Option<+T> = None | Some(value: T)

  /** The outcome of a check that either accepts a value or explains why not. */
  datatype Result<+R, +E> = Success(value: R) | Failure(error: E)
}
