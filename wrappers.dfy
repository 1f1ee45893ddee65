/** Optional values and call outcomes, as the TypeScript code uses `undefined` and exceptions. */
module Wrappers {

  /** A value that may be absent (`undefined` in the source). */
  datatype Option<+T> = None | Some(value: T)

  /** The outcome of a call into code outside the model: its value, or what it threw. */
  datatype Result<+R, +E> = Success(value: R) | Failure(error: E)
}
