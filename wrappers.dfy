/** Option, Result and Outcome: the absent values, fallible results and
    panics of the logging kernel. */
module Wrappers {

  datatype Option<+T> = None | Some(value: T)

  /** A value or the error text of a failed call. */
  datatype Result<+R, +E> = Success(value: R) | Failure(error: E)

  /** Completion of a call that returns nothing or panics with a message. */
  datatype Outcome<+E> = Pass | Fail(error: E)
}
