/** Optional values (Python's `None`) and failing lookups (Python's `KeyError`). */
module Wrappers {

  datatype Option<+T> = None | Some(value: T)

  datatype Result<+T, +E> = Success(value: T) | Failure(error: E)
}
