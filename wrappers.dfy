/** Option and Result datatypes shared by the rest of the model. */
module Wrappers {

  /** A value that may be absent; `None` stands for Ruby's `nil`. */
  datatype Option<+T> = None | Some(value: T)

  /** The outcome of an operation that may raise. */
  datatype Result<+T, +E> = Ok(value: T) | Err(error: E)
}
