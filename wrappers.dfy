/** Optional values and results with an error, shared by the other modules. */
module Wrappers {

  /** A value that may be absent, as JavaScript's `null` or an unset variable. */
  datatype Option<+T> = None | Some(value: T)

  /** The outcome of a computation that may fail with an error of type E. */
  datatype Result<+T, +E> = Success(value: T) | Failure(error: E)
}
