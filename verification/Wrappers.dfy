/** The optional and fallible results the other modules share. */
module Wrappers {

  /** `std::optional<T>`: a value that may be absent. */
  datatype Option<+T> = None | Some(value: T)

  /** A call that either returns a value or throws, carrying the reason it threw. */
  datatype Result<+T, +E> = Ok(value: T) | Err(error: E)
}
