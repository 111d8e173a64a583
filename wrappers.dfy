/** Optional values: Ruby's `nil` versus a present value. */
module Wrappers {

  datatype Option<+T> = None | Some(value: T) {

    /** The value, or `default` when absent. */
    function GetOr(default: T): T {
      match this
      case Some(v) => v
      case None => default
    }
  }

  /** Ruby's `a || b` on values that are either nil or present:
      the first one that is present wins. */
  function Prefer<T>(first: Option<T>, second: Option<T>): Option<T> {
    if first.Some? then first else second
  }
}
