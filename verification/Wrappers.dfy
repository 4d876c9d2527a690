/** The two failure-carrying datatypes shared by every module of the model. */
module Wrappers {
  datatype Option<+T> = None | Some(value: T)

  /** `Err` stands for an exception raised by the Python or TypeScript code. */
  datatype Result<+T, +E> = Ok(value: T) | Err(error: E)
}
