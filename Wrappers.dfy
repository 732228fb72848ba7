/** Option (JavaScript's `undefined` or a missing property is None) and Result. */
module Wrappers {

  datatype Option<+T> = None | Some(value: T) {

    function GetOr(default: T): T
    {
      match this
      case Some(v) => v
      case None => default
    }
  }

  /** The outcome of a step that can fail with an error value. */
  datatype Result<+T, +E> = Ok(value: T) | Err(error: E)
}
