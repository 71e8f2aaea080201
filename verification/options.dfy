/** Optional values: what a lookup that may find nothing returns. */
module Options {
  datatype Option<+T> = None | Some(value: T)

  /** A value or the error a call throws. */
  datatype Result<+T, +E> = Ok(value: T) | Err(error: E)
}
