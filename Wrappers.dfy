/** Optional values and results with an error, as returned by the modelled operations. */
module Wrappers {

  /** A value that may be absent: an undefined JavaScript property, a missing environment variable. */
  datatype Option<+T> = None | Some(value: T)

  /** A value, or the message of the exception that replaced it. */
  datatype Result<+T, +E> = Success(value: T) | Failure(error: E)
}
