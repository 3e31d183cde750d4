/** The Option and Result datatypes shared by every module of the model. */
module Wrappers {

  /** An optional value: `None` stands for JavaScript's `undefined`/`null` results. */
  datatype Option<+T> = None | Some(value: T)

  /** A value or the message of the error the source would throw. */
  datatype Result<+T, +E> = Ok(value: T) | Err(error: E)
}
