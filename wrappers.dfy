/** Optional values and fallible results, used wherever the engine returns "undefined"/"null" or throws. */
module Wrappers {

  datatype Option<T> = None | Some(value: T)

  datatype Result<T, E> = Success(value: T) | Failure(error: E)
}
