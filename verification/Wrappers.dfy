/** Failure-carrying datatypes shared by the model. */
module Wrappers {

  datatype Option<+T> = None | Some(value: T) {

    /** ptrx.Deref: the value behind the pointer, or a default for nil. */
    function GetOr(default: T): T {
      match this
      case Some(v) => v
      case None => default
    }
  }

  datatype Result<+T, +E> = Ok(value: T) | Err(error: E)
}
