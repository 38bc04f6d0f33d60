/** Failure-carrying datatypes: Python's `None` returns and raised exceptions. */
module Wrappers {

  /** A value or Python's `None`. */
  datatype Option<+T> = None | Some(value: T)

  /** A value, or the exception a Python function raised instead. */
  datatype Result<+T, +E> = Ok(value: T) | Err(error: E)

  /** A statement that completed, or the exception it raised. */
  datatype Outcome<+E> = Pass | Fail(error: E)
}
