/** Option stands for PHP's "a value or null" returns. */
module Wrappers {

  datatype Option<T> = None | Some(value: T) {

    /** The wrapped value, or `default` for None. */
    function GetOr(default: T): T {
      if Some? then value else default
    }
  }
}
