/** Optional values and success-or-error results, used for option keys and the pointcut constructor's errors. */
module Wrappers {

  /** A value that may be absent: an option key that was not given at all. */
  datatype Option<+T> = None | Some(value: T)

  /** Either a constructed value or the error the constructor raised. */
  datatype Result<+T, +E> = Success(value: T) | Failure(error: E)
}
