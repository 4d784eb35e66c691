/** Failure-carrying values shared by the other modules. */
module Wrappers {

  /** A value that may be absent (a lookup that found nothing). */
  datatype Option<+T> = None | Some(value: T)

  /** A value or the error that prevented computing it. */
  datatype Result<+T, +E> = Success(value: T) | Failure(error: E)
}
