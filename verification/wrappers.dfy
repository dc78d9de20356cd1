/** Optional values and results, shared by the router model. */
module Wrappers {

  /** A value that may be absent (the source's `undefined` / `null`). */
  datatype Option<+T> = None | Some(value: T)

  /** Either a result or the error the source throws. */
  datatype Result<+R, +E> = Success(value: R) | Failure(error: E)
}
