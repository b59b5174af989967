/** Optional values and results with an error message, shared by every module. */
module Wrappers {

  /** A value that may be absent: JavaScript's `undefined`/`null` next to a value. */
  datatype Option<T> = None | Some(value: T)

  /** The outcome of an operation that either yields a value or fails with a message. */
  datatype Result<T> = Ok(value: T) | Err(message: string)
}
