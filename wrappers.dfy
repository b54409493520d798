/** Failure-carrying wrappers shared by every module of the model. */
module Wrappers {

  /** An optional value: `None` stands for JavaScript's `undefined`, a missing map key or Go's nil. */
  datatype Option<+T> = None | Some(value: T) {
    function GetOr(default: T): T {
      match this
      case Some(v) => v
      case None => default
    }
  }

  /** The outcome of an operation that can fail with an error of type `E`. */
  datatype Result<+R, +E> = Ok(value: R) | Err(error: E)
}
