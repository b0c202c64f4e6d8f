/** Values that may be absent, and calls that may fail. */
module Wrappers {
  datatype Option<+T> = None | Some(value: T) {
    function GetOr(default: T): T {
      if None? then default else value
    }
  }

  datatype Result<+T, +E> = Ok(value: T) | Err(error: E)
}
