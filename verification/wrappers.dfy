/** Failure-carrying result types shared by the model's modules. */
module Wrappers {

  datatype Option<+T> = None | Some(value: T)

  /** The value of a step that either succeeds or stops with an error. */
  datatype Result<+T, +E> = Ok(value: T) | Err(error: E)

  /** The outcome of a step that changes state and returns nothing else. */
  datatype Outcome<+E> = Pass | Fail(error: E)
}
