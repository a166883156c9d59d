/** Option and Result, the two failure-carrying datatypes the model uses. */
module Wrappers {

  /** A nullable value: `None` stands for a `\N` / NaN cell of a table. */
  datatype Option<+T> = None | Some(value: T)

  /** The outcome of an operation that may raise an error. */
  datatype Result<+R, +E> = Success(value: R) | Failure(error: E)
}
