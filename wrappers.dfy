/** Optional values and results of operations that can raise. */
module Wrappers {

  /** A value that may be absent (Python's `X | None`). */
  datatype Option<+T> = None | Some(value: T)

  /** The value of a call that either returns or raises. */
  datatype Result<+T, +E> = Success(value: T) | Failure(error: E)
}
