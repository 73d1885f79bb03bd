/** The two failure-carrying shapes the model uses in place of Rust's
    `Option` and `std::io::Result`. */
module Outcomes {

  /** A value that may be absent. */
  datatype Option<+T> = None | Some(value: T)

  /** Either a value or the error that stopped its computation. */
  datatype Result<+T, +E> = Ok(value: T) | Err(error: E)
}
