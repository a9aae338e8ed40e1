/** Option and Result, for nil values, error returns and panics. */
module Results {

  /** A value that may be absent (a Go nil pointer or interface). */
  datatype Option<+T> = None | Some(value: T)

  /** Either a value or an error, the model of Go's `(T, error)` returns and of panics. */
  datatype Result<+T, +E> = Success(value: T) | Failure(error: E)
}
