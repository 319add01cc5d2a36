/** Failure-carrying wrappers shared by the model. */
module Wrappers {

  /** A value that may be missing (Python's `None` or an absent key). */
  datatype Option<+T> = None | Some(value: T)

  /** A returned value or a raised exception. */
  datatype Result<+T, +E> = Success(value: T) | Failure(error: E)

  /** A procedure that returns nothing, or raises. */
  datatype Outcome<+E> = Pass | Fail(error: E)
}
