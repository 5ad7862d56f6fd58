/** Failure-carrying values used throughout the model.
    A Python exception that propagates out of a call is modelled as `Err(message)`;
    a Python `Optional` return is modelled as `Option`. */
module Outcomes {

  datatype Option<+T> = None | Some(value: T) {
    function GetOr(default: T): T {
      match this
      case Some(v) => v
      case None => default
    }
  }

  datatype Result<+T> = Ok(value: T) | Err(message: string)
}
