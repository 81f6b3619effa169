/** Failure-carrying result types shared by the model. */
module Results {

  /** A value that may be absent (numpy's empty index set, for one). */
  datatype Option<+T> = None | Some(value: T)

  /** A computation that either produced a value or stopped with an error. */
  datatype Result<+T, +E> = Success(value: T) | Failure(error: E)
}
