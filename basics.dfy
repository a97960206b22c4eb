/** Small shared vocabulary: an optional value and integer helpers. */
module Basics {

  /** Python's `None` or a present value. */
  datatype Option<+T> = None | Some(value: T) {
    /** `d.get(key, default)` on a value that may be missing. */
    function GetOr(default: T): T {
      match this
      case Some(v) => v
      case None => default
    }
  }

  function Max(a: int, b: int): int { if a >= b then a else b }
  function Min(a: int, b: int): int { if a <= b then a else b }
  function Abs(a: int): int { if a >= 0 then a else -a }
  function MinReal(a: real, b: real): real { if a <= b then a else b }

  /** No element occurs twice. */
  predicate NoDup<T(==)>(s: seq<T>) {
    forall i, j :: 0 <= i < j < |s| ==> s[i] != s[j]
  }
}
