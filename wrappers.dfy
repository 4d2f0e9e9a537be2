/** Option and Result, shared by the other modules. */
module Wrappers {

  /** A value that may be absent (Go's nil pointer or an unset option). */
  datatype Option<+T> = None | Some(value: T)

  /** A value or the error that stopped it being produced (Go's `(T, error)` pair). */
  datatype Result<+T, +E> = Success(value: T) | Failure(error: E)
}
