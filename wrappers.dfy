/** Option and Result datatypes shared by the modules of the model. */
module Wrappers {

  /** A value that may be absent: the outcome of a parse that can fail. */
  datatype Option<+T> = None | Some(value: T)

  /** Either an accepted value or the reason it was refused. */
  datatype Result<+T, +E> = Ok(value: T) | Err(error: E)
}
