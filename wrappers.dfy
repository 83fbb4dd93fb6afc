/** Optional values (null in the source) and results of operations that may throw. */
module Wrappers {

  datatype Option<+T> = None | Some(value: T)

  /** The outcome of an operation that either returns a value or throws an exception. */
  datatype Result<+T> = Ok(value: T) | Err(error: string)
}
