/** Failure-carrying values shared by the modules of this model. */
module Wrappers {

  /** A value that may be absent; `None` stands for NaN in the statistics. */
  datatype Option<+T> = None | Some(value: T)

  /** The outcome of an operation that can raise an error in the source. */
  datatype Result<+T, +E> = Success(value: T) | Failure(error: E)
}
