/** A value that may be absent: a missing form field, a lookup that found nothing. */
module Wrappers {

  datatype Option<T> = None | Some(value: T) {

    /** The carried value, or `default` when there is none. */
    function GetOr(default: T): T {
      if Some? then value else default
    }
  }
}
