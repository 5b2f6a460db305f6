/** Optional values and the two ways an operation can end: with a value or
    having raised an exception. */
module Outcomes {

  datatype Option<+T> = None | Some(value: T)

  /** The result of an operation that returns a value or raises. */
  datatype Result<+T, +E> = Ok(value: T) | Err(error: E)

  /** The result of an operation that returns nothing (Python `None`) or raises. */
  datatype Outcome<+E> = Pass | Fail(error: E)
}
