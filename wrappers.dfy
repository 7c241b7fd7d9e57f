/** Failure-carrying datatypes used for the runtime's exceptions. */
module Wrappers {

  datatype Option<+T> = None | Some(value: T)

  /** A value, or the error that a constructor or call would have thrown instead. */
  datatype Result<+R, +E> = Success(value: R) | Failure(error: E)

  /** Success or failure of a check that produces no value. */
  datatype Outcome<+E> = Pass | Fail(error: E)
}
