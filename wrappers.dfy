/** Option and Result, the two failure-carrying datatypes the model uses. */
module Wrappers {

  datatype Option<+T> = None | Some(value: T)

  /** The outcome of a client call: a value, or the exception the call raises. */
  datatype Result<+T, +E> = Ok(value: T) | Err(error: E)
}
