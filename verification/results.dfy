/** Optional values and fallible results, for Go's `(value, ok)` and `(value, err)` returns. */
module Results {

  datatype Option<T> = None | Some(value: T)

  /** A Go `(value, error)` pair: an error carries its message. */
  datatype Result<T> = Ok(value: T) | Err(message: string)
}
