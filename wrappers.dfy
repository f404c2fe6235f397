/** Optional values and results shared by every module of the model. */
module Wrappers {

  datatype Option<+T> = None | Some(value: T)

  /** Either a value or the error a Go function would have returned beside it. */
  datatype Result<+T, +E> = Ok(value: T) | Err(error: E)
}
