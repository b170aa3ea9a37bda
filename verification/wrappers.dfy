/** Option and Result in the shape the controller's Rust code uses them. */
module Wrappers {

  datatype Option<+T> = None | Some(value: T)

  /** A Rust `Result`: `Ok` carries the value, `Err` the error. */
  datatype Result<+T, +E> = Ok(value: T) | Err(error: E)
}
