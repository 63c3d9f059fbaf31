/** Failure-carrying values used across the model. Errors are the text the
    program builds with errors.New or prints on exit. */
module Wrappers {

  datatype Option<+T> = None | Some(value: T)

  /** A value or an error message. */
  datatype Result<+T> = Ok(value: T) | Err(error: string)

  /** Success without a value, or an error message. */
  datatype Outcome = Pass | Fail(error: string)
}
