/** Optional values and success/failure results, shared by the other modules. */
module Wrappers {

  /** An optional value: JavaScript's `undefined` or an absent property is `None`. */
  datatype Option<+T> = None | Some(value: T)

  /** A call that either resolves with a value or throws an error. */
  datatype Result<+R, +E> = Success(value: R) | Failure(error: E)
}
