/** Optional values and success-or-error results, shared by every module. */
module Wrappers {

  /** A value that may be absent: `undefined`, `null` or a missing row in the source. */
  datatype Option<+T> = None | Some(value: T)

  /** The outcome of an operation that either returns a value or throws an error. */
  datatype Result<+T, +E> = Success(value: T) | Failure(error: E)
}
