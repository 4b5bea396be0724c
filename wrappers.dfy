/** Option and Result, the failure-carrying values used throughout the model. */
module Wrappers {

  /** `None` stands for a .NET null reference. */
  datatype Option<+T> = None | Some(value: T)

  /** `Failure` stands for an exception thrown by the modelled operation. */
  datatype Result<+R, +E> = Success(value: R) | Failure(error: E)
}
