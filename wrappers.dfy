/** Option and Result, the two failure-carrying shapes the model uses. */
module Wrappers {

  datatype Option<+T> = None | Some(value: T)

  /** A JavaScript promise that resolved (`Ok`) or threw (`Err`, with the error's message). */
  datatype Result<+T> = Ok(value: T) | Err(message: string)
}
