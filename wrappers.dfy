/** Optional values and results: a Java reference that may be null, an element that may not resolve, a build that may throw. */
module Wrappers {

  datatype Option<+T> = None | Some(value: T)

  datatype Result<+T, +E> = Success(value: T) | Failure(error: E)
}
