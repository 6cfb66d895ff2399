/** Optional values and results of operations that may throw. */
module Wrappers {

  /** `undefined`/`null` versus a present value. */
  datatype Option<+T> = None | Some(value: T)

  /** The outcome of an awaited call: the value it resolves to, or the error it throws. */
  datatype Result<+R, +E> = Success(value: R) | Failure(error: E)
}
