/** Option, Result and Outcome: the shapes the model uses where the source
    returns None, returns a value or raises. */
module Wrappers {

  datatype Option<+T> = None | Some(value: T)

  /** A value, or the exception that was raised instead. */
  datatype Result<+T, +E> = Success(value: T) | Failure(error: E)

  /** A procedure that returns nothing or raises. */
  datatype Outcome<+E> = Pass | Fail(error: E)
}
