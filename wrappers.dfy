/** Failure-carrying result types shared by the model. */
module Wrappers {

  datatype Option<+T> = None | Some(value: T)

  /** The outcome of a step that may raise a Python exception; the error carries its message. */
  datatype Result<+T> = Success(value: T) | Failure(error: string)
}
