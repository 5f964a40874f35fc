/** Optional values and results with an error message, shared by every module. */
module Wrappers {

  /** A value that may be missing (`undefined` / `null` in the application). */
  datatype Option<+T> = None | Some(value: T)

  /** The outcome of an operation that may fail with a message. */
  datatype Result<+T> = Ok(value: T) | Err(msg: string)
}
