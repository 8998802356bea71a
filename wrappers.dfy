/** Optional values (TypeScript's `T | undefined` / `T | null`) and the
    success-or-thrown-error outcome of an API call. */
module Wrappers {

  datatype Option<+T> = None | Some(value: T)

  datatype Result<+R, +E> = Success(value: R) | Failure(error: E)
}
