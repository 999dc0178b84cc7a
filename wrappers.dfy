/** Option and Result, the shapes used for C#'s null and for thrown exceptions. */
module Wrappers {

  /** A value that may be C#'s `null`. */
  datatype Option<+T> = None | Some(value: T)

  /** The outcome of a call that may throw. */
  datatype Result<+T, +E> = Success(value: T) | Failure(error: E)
}
