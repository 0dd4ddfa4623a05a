/** Option and Result, the two failure-carrying datatypes the rest of the model uses. */
module Wrappers {

  /** A value that may be absent (Ruby `nil`, a Python key that is not there). */
  datatype Option<+T> = None | Some(value: T)

  /** A value, or the error that the source raises instead of producing it. */
  datatype Result<+T, +E> = Success(value: T) | Failure(error: E)
}
