/** Failure-carrying values: Python's None and raised exceptions become these. */
module Wrappers {

  /** A value that may be absent (Python's None, Java's null). */
  datatype Option<+T> = None | Some(value: T)

  /** A computed value, or the error that the source would raise instead. */
  datatype Result<+T, +E> = Ok(value: T) | Err(error: E)

  /** Success of an operation that returns nothing, or the error it raises. */
  datatype Outcome<+E> = Pass | Fail(error: E)
}
