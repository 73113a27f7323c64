/** Optional values and results with an error, as the adapters use them:
    `None` for Python's `None`, `Failure` for a raised configuration error. */
module Wrappers {

  datatype Option<+T> = None | Some(value: T)

  datatype Result<+R, +E> = Success(value: R) | Failure(error: E)
}
