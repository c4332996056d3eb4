/** Optional values and results, used for Go's nil pointers and (value, error) pairs. */
module Options {
  datatype Option<+T> = None | Some(value: T)

  datatype Result<+T, +E> = Success(value: T) | Failure(error: E)
}
