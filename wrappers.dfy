/** Wrappers for Python's `None` results and raised errors. */
module Wrappers {

  /** A value that may be absent, standing in for a Python result that may be `None`. */
  datatype Option<+T> = None | Some(value: T)

  /** The outcome of an operation that either returns a value or raises an error. */
  datatype Result<+R, +E> = Success(value: R) | Failure(error: E)
}
