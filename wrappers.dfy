/** Optional values and success/failure results shared by the other modules. */
module Wrappers {

  /** A value that may be absent: JavaScript's `null`/`undefined` alternatives. */
  datatype Option<+T> = None | Some(value: T)

  /** The outcome of a call that may throw: `Ok` carries the value, `Err` the error text. */
  datatype Result<+T> = Ok(value: T) | Err(error: string)
}
