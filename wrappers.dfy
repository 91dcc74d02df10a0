/** Option and Result types shared by the other modules. */
module Wrappers {

  datatype Option<+T> = None | Some(value: T)

  /** A computation that either produces a value or fails with a message
      (a Go `error` value, or the message of a Go `panic`). */
  datatype Result<+T> = Ok(value: T) | Err(message: string)
}
