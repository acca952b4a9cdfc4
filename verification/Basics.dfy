/** Optional values and the outcome of calls that may throw. */
module Basics {

  datatype Option<+T> = None | Some(value: T)

  /** A call either returns a value or throws. */
  datatype Result<+T, +E> = Ok(value: T) | Err(error: E)
}
