/** Failure-carrying values shared by every module of the model.
    Python's `None` and raised exceptions are modelled with these. */
module Wrappers {

  datatype Option<+T> = None | Some(value: T)

  /** A computation that produced a value or raised an error. */
  datatype Result<+T, +E> = Ok(value: T) | Err(error: E)

  /** A step that returns nothing on success. */
  datatype Outcome<+E> = Pass | Fail(error: E)
}
