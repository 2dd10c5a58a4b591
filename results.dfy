/** Failure-carrying values: the model's stand-in for Go's `(value, error)` returns. */
module Results {

  datatype Option<+T> = None | Some(value: T)

  datatype Result<+T, +E> = Success(value: T) | Failure(error: E)
}
