/** Optional values and failure-carrying results, standing for Java's
    `Optional`/`null` and for exceptions that propagate out of a call. */
module Wrappers {

  datatype Option<+T> = None | Some(value: T)

  datatype Result<+T, +E> = Success(value: T) | Failure(error: E)
}
