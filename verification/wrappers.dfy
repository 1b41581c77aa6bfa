/** Failure-carrying results: the model's stand-in for Python's exceptions. */
module Wrappers {

  datatype Option<+T> = None | Some(value: T)

  /** A value, or the error the source would have raised instead. */
  datatype Result<+T, +E> = Success(value: T) | Failure(error: E)

  /** A check that either passes or raises `error`. */
  datatype Outcome<+E> = Pass | Fail(error: E)
}
