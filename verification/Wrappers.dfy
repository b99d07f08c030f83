/**
 Values that may be missing, and results of calls that may fail.
 */
module Wrappers {
  datatype Option<+T> = None | Some(value: T) {
    function Or(other: T): T {
      if Some? then value else other
    }
  }

  datatype Result<+T, +E> = Ok(value: T) | Err(error: E)
}
