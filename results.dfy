/** Failure-carrying return values used for the error paths of the model. */
module Results {

  datatype Option<+T> = None | Some(value: T)

  /** A value or the error a PHP call would have thrown instead. */
  datatype Result<+T, +E> = Ok(value: T) | Err(error: E)

  /** The outcome of an operation that returns nothing but can fail. */
  datatype Outcome<+E> = Pass | Fail(error: E)
}
