/** Optional values and success-or-failure results, shared by the gateway and the chat list. */
module Wrappers {

  /** A value that may be absent: an undefined JavaScript property, an optional request field. */
  datatype Option<+T> = None | Some(value: T)

  /** The outcome of a call that either returns a value or throws an error. */
  datatype Result<+R, +E> = Success(value: R) | Failure(error: E)
}
