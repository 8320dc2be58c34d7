/** Optional values and error-or-value results, the shapes Go's `(value, error)` returns take here. */
module Wrappers {

  datatype Option<+T> = None | Some(value: T)

  datatype Result<+T, +E> = Ok(value: T) | Err(error: E)
}
