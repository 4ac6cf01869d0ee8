/** Optional values and results that carry an error instead of raising it. */
module Wrappers {

  /** A value that may be absent (Python's `None`). */
  datatype Option<+T> = None | Some(value: T)

  /** The outcome of an operation that can fail part-way. */
  datatype Result<+T, +E> = Success(value: T) | Failure(error: E)
}
