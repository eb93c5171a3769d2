/** Optional values and results with an error, as the handlers and hooks use them. */
module Wrappers {

  /** A value that may be absent: JavaScript's `null`/`undefined` for a record field or a state slot. */
  datatype Option<+T> = None | Some(value: T)

  /** The outcome of a computation that may throw: `Err` carries the error's message. */
  datatype Result<+T, +E> = Ok(value: T) | Err(error: E)
}
