/** Option and Result values, used for the absent JSON fields and for the errors
    that the fetch client throws. */
module Wrappers {

  datatype Option<+T> = None | Some(value: T)

  datatype Result<+T, +E> = Success(value: T) | Failure(error: E)
}
