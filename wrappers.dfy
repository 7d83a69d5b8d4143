/** Option and Result values used for missing JavaScript values and for thrown errors. */
module Wrappers {

  /** A JavaScript value that may be `undefined`. */
  datatype Option<+T> = None | Some(value: T)

  /** The outcome of a call that either returns a value or throws an `Error` with a message. */
  datatype Result<+T> = Ok(value: T) | Err(error: string)

  /** The outcome of a call that returns nothing or throws an `Error` with a message. */
  datatype Outcome = Pass | Fail(error: string)
}
