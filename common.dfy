/** Failure-compatible wrappers shared by the other modules. */
module Common {

  /** An optional value; Python's `None` is `None`. */
  datatype Option<+T> = None | Some(value: T)

  /** A value, or the exception the source raises instead of returning it. */
  datatype Result<+T, +E> = Success(value: T) | Failure(error: E)
}
