/** Wrappers shared by the model: Python's `None`, raised exceptions and calls that either
    finish or raise. */
module Wrappers {

  /** `T | None` in type-hint terms. */
  datatype Option<+T> = None | Some(value: T)

  /** The value a Python call returns, or the exception it raises. */
  datatype Result<+T, +E> = Success(value: T) | Failure(error: E)

  /** A call that returns `None` on success, or raises. */
  datatype Outcome<+E> = Pass | Fail(error: E)
}
