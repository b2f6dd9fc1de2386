/** Optional values and results with an error message, shared by the effect modules. */
module Wrappers {

  /** A value that may be absent (`undefined` in the modelled code). */
  datatype Option<+T> = None | Some(value: T)

  /** The outcome of a computation that may throw: a value, or the message it throws. */
  datatype Result<+T> = Ok(value: T) | Err(message: string)
}
