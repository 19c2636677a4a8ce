/** Optional values and results with an error case, used wherever the shop
    either finds nothing or refuses an operation. */
module Wrappers {

  datatype Option<+T> = None | Some(value: T)

  datatype Result<+T, +E> = Success(value: T) | Failure(error: E)
}
