/** Failure-carrying values used in place of Python's exceptions. */
module Wrappers {

  /** A value that may be absent: a key that a Python dict may or may not hold. */
  datatype Option<+T> = None | Some(value: T)

  /** The value a Python call returns, or the exception it raises. */
  datatype Result<+R, +E> = Success(value: R) | Failure(error: E)

  /** The outcome of a Python call that returns nothing but may raise. */
  datatype Outcome<+E> = Pass | Fail(error: E)
}
