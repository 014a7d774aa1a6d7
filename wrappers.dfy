/** Optional values and the outcome of code that may throw. */
module Wrappers {

  /** A value that may be absent (`undefined` / `null` in JavaScript). */
  datatype Option<+T> = None | Some(value: T)

  /** The outcome of an expression that may throw: its value, or the
      message of the Error it threw. */
  datatype Result<+T> = Ok(value: T) | Err(message: string)
}
