/** Optional values and error-carrying results, for the `null`s and the
    thrown errors of the directory code. */
module Wrappers {

  datatype Option<+T> = None | Some(value: T)

  datatype Result<+R, +E> = Success(value: R) | Failure(error: E)
}
