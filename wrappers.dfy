/** Failure-carrying values used in place of Python's exceptions. */
module Wrappers {

  datatype Option<+T> = None | Some(value: T)

  /** A value, or the error that was raised instead of returning it. */
  datatype Result<+T, +E> = Ok(value: T) | Err(error: E)

  /** The outcome of a check that returns nothing on success and raises on failure. */
  datatype Outcome<+E> = Pass | Fail(error: E)
}
