/** Optional values and results, used for nullable fields and for errors. */
module Wrappers {

  /** A value that may be absent (JavaScript `undefined`/`null`). */
  datatype Option<+T> = None | Some(value: T)

  /** A value, or the error raised while computing it. */
  datatype Result<+R, +E> = Success(value: R) | Failure(error: E)
}
