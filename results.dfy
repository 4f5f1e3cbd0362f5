/** Failure-carrying values used where the Python source raises, prints an error or returns None. */
module Results {

  datatype Option<+T> = None | Some(value: T)

  /** A value or the error that stopped its computation (a raised exception). */
  datatype Result<+T, +E> = Success(value: T) | Failure(error: E)

  /** The outcome of a step that produces nothing but may fail. */
  datatype Outcome<+E> = Pass | Fail(error: E)
}
