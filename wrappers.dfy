/** Optional values and fallible results, shared by the route and the page models. */
module Wrappers {

  /** A value that may be absent: JavaScript's `null`/`undefined` or a missing header. */
  datatype Option<+T> = None | Some(value: T)

  /** The outcome of one step of a pipeline of checks: a value or the reason it stopped. */
  datatype Result<+R, +E> = Success(value: R) | Failure(error: E)
}
