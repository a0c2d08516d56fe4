/** Optional values and success-or-error results, shared by the guard and the service. */
module Wrappers {

  /** A value that may be absent: `undefined`/`null` on the TypeScript side. */
  datatype Option<+T> = None | Some(value: T)

  /** The outcome of an operation that either returns a value or throws an HTTP exception. */
  datatype Result<+R, +E> = Success(value: R) | Failure(error: E)
}
