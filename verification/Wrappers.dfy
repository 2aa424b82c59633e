/** Optional values and the store's error results. */
module Wrappers {

  datatype Option<+T> = None | Some(value: T)

  /** The error codes of internal/core/errors.go that the modelled operations return. */
  datatype ErrorCode = InvalidArgument | NotFound | Conflict | Unauthorized

  datatype Result<+T> = Success(value: T) | Failure(error: ErrorCode)
}
