/** Optional values and error results shared by the three component models. */
module Wrappers {

  /** A value that may be absent: `undefined`/`null` in the original props and storage. */
  datatype Option<+T> = None | Some(value: T) {

    /** The value, or `default` when absent. */
    function GetOr(default: T): T {
      if Some? then value else default
    }
  }

  /** The outcome of an accessor that throws when used outside its scope. */
  datatype Result<+T, +E> = Ok(value: T) | Err(error: E)
}
