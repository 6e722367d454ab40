/** Optional values and success-or-failure results shared by the other modules. */
module Wrappers {

  /** A value that may be missing: JavaScript's `undefined`/`null`, or an empty query result. */
  datatype Option<+T> = None | Some(value: T)

  /** The outcome of a step that either yields a value or fails with an error. */
  datatype Result<+T, +E> = Success(value: T) | Failure(error: E)
}
