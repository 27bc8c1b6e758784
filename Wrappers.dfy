/** Option and Result, the two failure-carrying datatypes used across the model. */
module Wrappers {

  /** A value that may be missing: a `null` from storage, a key not present, a call not made. */
  datatype Option<+T> = None | Some(value: T)

  /** A computation that either returns a value or throws an error. */
  datatype Result<+T, +E> = Success(value: T) | Failure(error: E)
}
