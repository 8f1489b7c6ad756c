/** Small failure-compatible wrapper used across the model: a JavaScript value
    that may be `null`/`undefined` is an `Option`. */
module Wrappers {

  datatype Option<+T> = None | Some(value: T) {

    /** The wrapped value, or `default` when absent (JavaScript's `x ?? d`). */
    function GetOr(default: T): T {
      match this
      case Some(v) => v
      case None => default
    }
  }

  /** `parseFloat(x) || 0`: an unparsable (NaN) or zero reading becomes 0. */
  function OrZero(x: Option<real>): real
  {
    if x.Some? then x.value else 0.0
  }

  /** `parseInt(x) || d`: an unparsable (NaN) or zero reading becomes `d`. */
  function IntOr(x: Option<int>, d: int): int
  {
    if x.Some? && x.value != 0 then x.value else d
  }
}
