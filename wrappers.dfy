/** Option and Result values shared by the store model. */
module Wrappers {

  /** `None` stands for the source's `None` (a row that is not there). */
  datatype Option<+T> = None | Some(value: T)

  /** The outcome of a store write that the database may refuse. */
  datatype Result<+T, +E> = Ok(value: T) | Err(error: E)
}
