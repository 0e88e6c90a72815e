/** The values with which operations of the model report success or failure. */
module Results {

  /** A value that may be absent (Python's `None`). */
  datatype Option<+T> = None | Some(value: T)

  /** A value, or the error raised instead of returning it. */
  datatype Result<+T, +E> = Success(value: T) | Failure(error: E)

  /** Success with nothing to return, or the error raised. */
  datatype Outcome<+E> = Pass | Fail(error: E)
}
