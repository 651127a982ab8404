/** Failure-carrying datatypes shared by the two components. */
module Wrappers {

  /** A value that may be absent (Python's `None`). */
  datatype Option<T> = None | Some(value: T)

  /** A value, or the exception that was raised instead of producing it. */
  datatype Result<T, E> = Ok(value: T) | Err(error: E)

  /** An operation that returns nothing, or the exception it raised. */
  datatype Outcome<E> = Pass | Fail(error: E)
}
