/** Optional values and results with an error, used by every section of the site model. */
module Wrappers {

  /** A value that may be missing (an unset environment variable, an undefined `error` field). */
  datatype Option<+T> = None | Some(value: T)

  /** The outcome of an operation that either returns a value or throws an error with a message. */
  datatype Result<+T, +E> = Success(value: T) | Failure(error: E)
}
