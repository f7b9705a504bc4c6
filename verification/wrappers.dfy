/** Option and Result, used across the model. */
module Wrappers {

  /** An optional value: Python's `None` or a present value. */
  datatype Option<+T> = None | Some(value: T)

  /** The outcome of a computation that may raise: `Error` stands for the exception. */
  datatype Result<+T> = Ok(value: T) | Error(message: string)
}
