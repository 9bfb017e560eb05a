/** Failure-carrying result types shared by the other modules. */
module Wrappers {

  /** A value that may be missing: a null date, an exhausted input, a rejected line. */
  datatype Option<+T> = None | Some(value: T)

  /** The outcome of an operation that raises on failure in the source. */
  datatype Result<+R, +E> = Success(value: R) | Failure(error: E)
}
