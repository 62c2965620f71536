/** Optional values and success-or-failure results, the two shapes the app's
    Swift code uses for "maybe nil" and for thrown errors. */
module Wrappers {

  datatype Option<+T> = None | Some(value: T)

  datatype Result<+T, +E> = Success(value: T) | Failure(error: E)
}
