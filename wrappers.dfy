/** Optional values: a header that may be absent, a lookup that may fail. */
module Wrappers {

  datatype Option<+T> = None | Some(value: T) {

    /** The wrapped value, or `default` when there is none. */
    function GetOr(default: T): T {
      match this
      case Some(v) => v
      case None => default
    }
  }

  /**
   * JavaScript truthiness of a value that is either a string or absent
   * (`null`/`undefined`): only a non-empty string is truthy.
   */
  predicate IsPresent(s: Option<string>) {
    s.Some? && s.value != ""
  }

  /** The JavaScript expression `s || fallback` for a possibly absent string. */
  function OrElse(s: Option<string>, fallback: string): (r: string)
    ensures IsPresent(s) ==> r == s.value
    ensures !IsPresent(s) ==> r == fallback
  {
    if IsPresent(s) then s.value else fallback
  }
}
