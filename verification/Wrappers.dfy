/** The two result types the other modules share. */
module Wrappers {

  datatype Option<T> = None | Some(value: T)

  // `std::expected`; what the error message says is not modelled.
  datatype Result<T> = Ok(value: T) | Err
}
