/** Failure-carrying values used across the model. */
module Wrappers {

  /** A value that may be missing (a JavaScript `undefined` field). */
  datatype Option<+T> = None | Some(value: T)

  /** Either a value or the reason it could not be produced. */
  datatype Result<+R, +E> = Success(value: R) | Failure(error: E)
}
