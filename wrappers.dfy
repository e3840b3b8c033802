/** Optional values: JavaScript's `undefined`/`null` (and, for numbers, `NaN`)
    become `None`. */
module Wrappers {

  datatype Option<+T> = None | Some(value: T) {

    /** The value, or `default` when absent. */
    function GetOr(default: T): T {
      match this
      case Some(v) => v
      case None => default
    }
  }

  /** `x || 0` on a possibly missing number. */
  function OrZero(x: Option<int>): int {
    x.GetOr(0)
  }

  function Min(a: int, b: int): int {
    if a <= b then a else b
  }

  function Max(a: int, b: int): int {
    if a >= b then a else b
  }
}
