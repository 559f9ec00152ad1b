/** Option and Result, the two tagged values the rest of the model returns
    in place of Python's None and raised exceptions. */
module Wrappers {

  datatype Option<+T> = None | Some(value: T) {
    /** The value, or `default` when there is none. */
    function GetOr(default: T): T {
      if Some? then value else default
    }
  }

  /** `Ok(value)` for a normal return, `Err(error)` for a raised exception. */
  datatype Result<+T, +E> = Ok(value: T) | Err(error: E)
}
