/** Option and Result, the two failure-carrying shapes the rest of the model uses. */
module Wrappers {

  datatype Option<+T> = None | Some(value: T)

  /** A computation that either produces a value or raises an error with a message. */
  datatype Result<+T> = Ok(value: T) | Err(message: string)
}
