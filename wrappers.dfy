/** Optional values and results with an error, standing in for Python's
    `None` and for the `ValueError`s the pricing engine raises. */
module Wrappers {

  datatype Option<+T> = None | Some(value: T)

  datatype Result<+T, +E> = Success(value: T) | Failure(error: E)
}
