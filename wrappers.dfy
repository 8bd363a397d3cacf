/** Optional values: the model's stand-in for `undefined`/`null` results. */
module Wrappers {

  datatype Option<+T> = None | Some(value: T) {

    /** The value, or `default` when absent (JavaScript's `x || default` on a missing array). */
    function GetOr(default: T): (r: T)
      ensures this.Some? ==> r == value
      ensures this.None? ==> r == default
    {
      match this
      case Some(v) => v
      case None => default
    }
  }

  /** JavaScript truthiness of a string that may be `undefined`: the empty
      string is as falsy as a missing one, so `!x` holds of both. */
  predicate Truthy(x: Option<string>) {
    x.Some? && x.value != ""
  }
}
