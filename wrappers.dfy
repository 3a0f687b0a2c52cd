/** Optional values and results with an error payload, used across the model. */
module Wrappers {

  /** `undefined` in the source becomes `None`. */
  datatype Option<+T> = None | Some(value: T)

  /** A computation that either produced a value or threw. */
  datatype Result<+T, +E> = Success(value: T) | Failure(error: E)
}
