/** Error-or-value wrappers used in place of Go's `(value, err)` returns and of
    the process exits that `kill` and `must` perform. */
module Results {

  /** A value that may be absent. */
  datatype Option<+T> = None | Some(value: T)

  /** Either the computed value or the first error met on the way. */
  datatype Result<+T, +E> = Success(value: T) | Failure(error: E)
}
