/** Optional values and results with an error, used throughout the model. */
module Wrappers {

  /** A value that may be absent; `None` stands for JavaScript's `undefined`. */
  datatype Option<+T> = None | Some(value: T)

  /** Either a value or the error a step raised. */
  datatype Result<+T, +E> = Success(value: T) | Failure(error: E)
}
