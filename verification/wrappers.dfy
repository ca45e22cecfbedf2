/** Failure-carrying values shared by the other modules. */
module Wrappers {

  /** A value that may be absent: Python's `None` or a missing match. */
  datatype Option<+T> = None | Some(value: T)

  /** Either a computed value or the error that stopped the computation. */
  datatype Result<+R, +E> = Success(value: R) | Failure(error: E)
}
