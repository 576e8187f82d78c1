/** Optional values, for fields that a request body or a stored document may leave out. */
module Wrappers {

  datatype Option<T> = None | Some(value: T) {

    /** The value when present, the given default otherwise (JavaScript's `?? default`). */
    function GetOr(default: T): T {
      if Some? then value else default
    }
  }
}
