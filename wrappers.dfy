/** The Option and Result datatypes shared by the other modules. */
module Wrappers {

  /** A value that may be absent (Python's `None`). */
  datatype Option<+T> = None | Some(value: T)

  /** The outcome of an operation that fails on some inputs instead of returning. */
  datatype Result<+R, +E> = Success(value: R) | Failure(error: E)
}
