/** Failure-compatible wrappers shared by the handler and the setup script models. */
module Wrappers {

  /** A value that may be absent (a dictionary miss, a call that raised). */
  datatype Option<+T> = None | Some(value: T)

  /** The outcome of an operation that either produces a value or fails with an error. */
  datatype Result<+R, +E> = Success(value: R) | Failure(error: E)
}
