/** Optional values and success/failure results shared by the other modules. */
module Wrappers {

  /** A value that may be absent (`null` / `undefined` in the source). */
  datatype Option<+T> = None | Some(value: T)

  /** The outcome of a step that either produces a value or throws an error. */
  datatype Result<+T, +E> = Success(value: T) | Failure(error: E)
}
