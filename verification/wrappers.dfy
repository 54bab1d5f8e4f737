/** Failure-compatible wrappers used by the forecast callback. */
module Wrappers {

  /** A value that may be absent: the forecast feed either delivered data or did not. */
  datatype Option<+T> = None | Some(value: T)

  /** The outcome of a call that can fail with an error of type `E`. */
  datatype Result<+R, +E> = Success(value: R) | Failure(error: E)
}
