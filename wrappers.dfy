/** Stock wrappers used across the model. */
module Wrappers {

  /** A value that may be missing: a parse that failed, an empty selection. */
  datatype Option<+T> = None | Some(value: T)

  /** The outcome of a run that can stop with an error. */
  datatype Result<+T, +E> = Ok(value: T) | Err(error: E)
}
