/** Failure-compatible wrappers shared by the whole model. */
module Wrappers {

  datatype Option<+T> = None | Some(value: T)

  /** The outcome of a call that may raise: `Err` carries the message. */
  datatype Result<+T, +E> = Ok(value: T) | Err(error: E)
}
