/** Option and Result, the two failure-carrying types of the Rust standard library
    that the modelled code relies on. */
module Wrappers {

  datatype Option<+T> = None | Some(value: T)

  datatype Result<+T, +E> = Ok(value: T) | Err(error: E)
}
