/** Failure-carrying datatypes used in place of Python's None returns and raised exceptions. */
module Results {

  /** A value, or nothing (Python's `None`). */
  datatype Option<+T> = None | Some(value: T)

  /** A value, or the error that a Python constructor would have raised. */
  datatype Result<+T, +E> = Ok(value: T) | Err(error: E)

  /** A check that passes, or fails with an error. */
  datatype Outcome<+E> = Pass | Fail(error: E)
}
