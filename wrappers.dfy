/** Failure-compatible result types: the model's stand-in for Java's null
    returns and thrown exceptions. */
module Wrappers {

  datatype Option<+T> = None | Some(value: T)

  datatype Result<+R, +E> = Success(value: R) | Failure(error: E)

  /** The verdict of a step that returns nothing: it passes or fails with an error. */
  datatype Outcome<+E> = Pass | Fail(error: E)
}
