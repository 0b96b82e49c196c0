/** Option and Result, the failure-carrying wrappers used throughout the model. */
module Wrappers {

  datatype Option<+T> = None | Some(value: T)

  /** A computation that either produced a value or raised an exception with a message. */
  datatype Result<+T> = Ok(value: T) | Err(error: string)
}
