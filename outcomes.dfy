/** Optional values and fallible results used throughout the bootstrap model.
    A C++ `throw std::runtime_error(...)` becomes an `Err` carrying the error. */
module Outcomes {

  datatype Option<+T> = None | Some(value: T)

  datatype Result<+T, +E> = Ok(value: T) | Err(error: E)
}
