/** Failure-carrying wrappers shared by the other modules. */
module Wrappers {

  /** A value that may be absent (the JavaScript `null` of a data slot). */
  datatype Option<+T> = None | Some(value: T)

  /** The outcome of an operation that can fail with a displayable error. */
  datatype Result<+T, +E> = Success(value: T) | Failure(error: E)
}
