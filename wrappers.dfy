/** Optional values (TypeScript's `undefined`) and fallible results (a thrown error). */
module Wrappers {
  datatype Option<+T> = None | Some(value: T)

  datatype Result<+T, +E> = Success(value: T) | Failure(error: E)
}
