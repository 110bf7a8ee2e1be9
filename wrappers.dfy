/** Option and Result, the two failure-carrying shapes the model uses. */
module Wrappers {

  /** A value that may be missing: `null`/`undefined` in the service. */
  datatype Option<+T> = None | Some(value: T)

  /** The outcome of an operation that either returns a value or throws an
      `Error` carrying a message. */
  datatype Result<+T> = Ok(value: T) | Err(message: string)
}
