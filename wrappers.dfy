/** Optional values and results with an error message, used where the game's C++ uses a null pointer or throws. */
module Wrappers {

  datatype Option<+T> = None | Some(value: T)

  datatype Result<+T> = Success(value: T) | Failure(error: string)
}
