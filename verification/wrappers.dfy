/** Optional values and results with an error, used wherever the source
    works with `null`/`undefined` or a thrown exception. */
module Wrappers {

  datatype Option<+T> = None | Some(value: T)

  /** The outcome of an operation that either produces a value or throws. */
  datatype Result<+T, +E> = Success(value: T) | Failure(error: E)
}
