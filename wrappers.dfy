/** Option, Result and Outcome datatypes used across the model. */
module Wrappers {

  datatype Option<+T> = None | Some(value: T)

  /** The value of a call that may raise: Success, or the exception it raised. */
  datatype Result<+R, +E> = Success(value: R) | Failure(error: E)

  /** The outcome of a call that returns nothing but may raise. */
  datatype Outcome<+E> = Pass | Fail(error: E)
}
