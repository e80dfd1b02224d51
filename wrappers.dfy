/** Optional values and call outcomes shared by the other modules. */
module Wrappers {

  /** A value that may be absent (`undefined` in the modelled code). */
  datatype Option<+T> = None | Some(value: T)

  /** The outcome of a call: a value, or the error it throws. */
  datatype Result<+T, +E> = Success(value: T) | Failure(error: E)
}
