/** Optional values and success-or-failure results, used for the
    environment readings and for every fallible step of a recognition call. */
module Wrappers {

  datatype Option<+T> = None | Some(value: T)

  datatype Result<+T, +E> = Success(value: T) | Failure(error: E)
}
