/** Failure-carrying datatypes used throughout the model. */
module Wrappers {

  /** A value that may be missing. */
  datatype Option<+T> = None | Some(value: T)

  /** The outcome of a call that either yields a value or throws. */
  datatype Result<+R, +E> = Success(value: R) | Failure(error: E)

  /** The outcome of a call that yields nothing on success. */
  datatype Outcome<+E> = Pass | Fail(error: E)
}
