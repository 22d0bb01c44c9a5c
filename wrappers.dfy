/** Option and Result, the failure-carrying values the rest of the model uses. */
module Wrappers {

  datatype Option<+T> = None | Some(value: T)

  /** The outcome of a call that can throw: a value, or the cause it failed with. */
  datatype Result<+T> = Ok(value: T) | Err(cause: string)
}
