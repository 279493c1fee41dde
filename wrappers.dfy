/** Optional values and success-or-error results, used across the model. */
module Wrappers {

  /** A value that may be absent (JavaScript `null`/`undefined` at an API boundary). */
  datatype Option<+T> = None | Some(value: T)

  /** Either a value or the message of the error that was thrown instead. */
  datatype Result<+T, +E> = Success(value: T) | Failure(error: E)
}
