/// Option and Result, the two failure-carrying shapes the rest of the model uses:
/// `Option` for "absent / undefined", `Result` for an operation that throws.
module Wrappers {

  datatype Option<+T> = None | Some(value: T) {
    function GetOr(default: T): T {
      match this
      case Some(v) => v
      case None => default
    }
  }

  /** `Err` carries the message of the error the operation throws. */
  datatype Result<+T> = Ok(value: T) | Err(error: string)
}
