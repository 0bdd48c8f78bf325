/** Optional values and results with an error, for the inputs that may be missing or rejected. */
module Wrappers {

  datatype Option<T> = None | Some(value: T)

  datatype Result<T, E> = Ok(value: T) | Err(error: E)
}
