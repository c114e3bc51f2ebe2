/** Failure-carrying results used for the exceptions the modelled code raises. */
module Wrappers {

  datatype Option<+T> = None | Some(value: T)

  datatype Result<+R, +E> = Success(value: R) | Failure(error: E)

  /** An outcome that carries no value, only a possible error. */
  datatype Outcome<+E> = Pass | Fail(error: E)
}
