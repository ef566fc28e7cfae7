/** Optional values and results with an error, used by every other module. */
module Wrappers {

  /** A value that may be absent (JavaScript's `undefined`). */
  datatype Option<+T> = None | Some(value: T)

  /** A value or the error a call raised. */
  datatype Result<+T, +E> = Ok(value: T) | Err(error: E)
}
