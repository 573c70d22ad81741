/** Optional values and the outcome of a call that may raise. */
module Wrappers {

  /** A value that may be absent (Python's `None`). */
  datatype Option<+T> = None | Some(value: T)

  /** Either the value a call returned or the message of the exception it raised. */
  datatype Result<+T> = Ok(value: T) | Err(msg: string)
}
