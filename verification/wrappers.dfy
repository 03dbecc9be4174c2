/** Optional values and results with an error message, shared by every module. */
module Wrappers {

  /** A value that may be absent (JavaScript `null` / `undefined`). */
  datatype Option<+T> = None | Some(value: T)

  /** The outcome of an operation that either resolves with a value or
      rejects with an error (a JavaScript `Error` carrying a message). */
  datatype Result<+R, +E> = Success(value: R) | Failure(error: E)
}
