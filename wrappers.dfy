/** Option and Result values used across the model. */
module Wrappers {

  /** A value that may be absent: JavaScript's `undefined`/`null`, a missing form field. */
  datatype Option<+T> = None | Some(value: T)

  /** The outcome of a database call: a value, or the error it throws. */
  datatype Result<+T> = Success(value: T) | Failure(error: string)
}
