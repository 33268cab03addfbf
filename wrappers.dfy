/** Optional values, standing for the source's `T | null`, `T | undefined` and optional fields. */
module Wrappers {
  datatype Option<+T> = None | Some(value: T)

  /** Either a value or an error, for calls that resolve or reject. */
  datatype Result<+T, +E> = Success(value: T) | Failure(error: E)
}
