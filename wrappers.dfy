/** Optional values and results with an error, used for nullable columns and for
    the validation failures the Python code signals with exceptions. */
module Wrappers {

  datatype Option<+T> = None | Some(value: T)

  datatype Result<+T, +E> = Success(value: T) | Failure(error: E)
}
