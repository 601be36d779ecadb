/** Optional values: a JSON field or a reference that may be absent. */
module Wrappers {

  datatype Option<T> = None | Some(value: T) {

    /** The value when present, else the default. */
    function GetOr(default: T): (r: T)
      ensures Some? ==> r == value
      ensures None? ==> r == default
    {
      match this
      case Some(v) => v
      case None => default
    }
  }
}
