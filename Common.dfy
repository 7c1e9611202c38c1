/** Option and Result, used for JavaScript's `null` and for thrown errors. */
module Common {

  datatype Option<+T> = None | Some(value: T)

  /** A call that either returns a value or throws an error carrying a message. */
  datatype Result<+T, +E> = Success(value: T) | Failure(error: E)
}
