/** Optional values and results with an error, shared by the widget models. */
module Wrappers {

  /** A value that may be absent (JavaScript's null or undefined). */
  datatype Option<+T> = None | Some(value: T)

  /** The outcome of a step that may throw instead of producing a value. */
  datatype Result<+T, +E> = Success(value: T) | Failure(error: E)
}
