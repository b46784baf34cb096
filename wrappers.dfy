/** Option and Result, the two failure-carrying types the client's operations return. */
module Wrappers {

  datatype Option<+T> = None | Some(value: T)

  /** The outcome of a client operation: a value, or the error that stopped it. */
  datatype Result<+T, +E> = Ok(value: T) | Err(error: E)
}
