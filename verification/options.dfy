/** Optional and fallible values, standing in for Go's nil-able interfaces and
    `(value, error)` result pairs. */
module Options {

  /** An optional value: `None` plays the part of Go's `nil`. */
  datatype Option<+T> = None | Some(value: T)

  /** The outcome of an operation that either yields a value or an error. */
  datatype Result<+T, +E> = Success(value: T) | Failure(error: E)
}
