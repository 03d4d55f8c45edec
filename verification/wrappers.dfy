/** Option and Result, the failure-carrying datatypes used by the model. */
module Wrappers {

  /** A value that may be absent (the model's stand-in for a Java reference that may be null). */
  datatype Option<+T> = None | Some(value: T)

  /** The outcome of an operation that either returns a value or raises an error. */
  datatype Result<+R, +E> = Success(value: R) | Failure(error: E)
}
