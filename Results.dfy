/** Failure-carrying values shared by every module of the model. */
module Results {

  datatype Option<+T> = None | Some(value: T)

  /** A computation that either produced a value or raised an error. */
  datatype Result<+T, +E> = Ok(value: T) | Err(error: E)

  /** A step that either completed or raised an error, with no value. */
  datatype Outcome<+E> = Pass | Fail(error: E)
}
