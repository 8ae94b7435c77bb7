/** Option and Result values used throughout the model: a missing value
    (JavaScript's `null`/`undefined`) and an operation that can throw. */
module Wrappers {

  datatype Option<T> = None | Some(value: T) {
    function GetOr(default: T): T
    {
      match this
      case Some(v) => v
      case None => default
    }
  }

  datatype Result<T, E> = Ok(value: T) | Err(error: E)
}
