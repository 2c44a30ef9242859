/** Option and Result values for the error paths of the model. */
module Wrappers {

  datatype Option<+T> = None | Some(value: T)

  /** A computation that either succeeds or raises an exception with a message. */
  datatype Result<+T> = Success(value: T) | Failure(error: string)
}
