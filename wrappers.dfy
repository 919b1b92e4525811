/** Option and Result, shared by every module. */
module Wrappers {
  datatype Option<T> = None | Some(value: T)

  /** A JavaScript `async` function either resolves with a value or rejects with an `Error` whose message is `message`. */
  datatype Result<T> = Ok(value: T) | Err(message: string)
}
