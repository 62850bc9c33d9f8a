/** Small shared vocabulary: an optional value (PHP's "set or null"), and a few
    sequence helpers used by several components of the purge plugin. */
module Base {

  /** A value PHP may leave unset (null, false, or an absent array key). */
  datatype Option<+T> = None | Some(value: T) {

    /** The value, or `default` when it is unset. */
    function GetOr(default: T): T {
      match this
      case Some(v) => v
      case None => default
    }
  }

  function Min(a: int, b: int): int {
    if a <= b then a else b
  }

  /** Concatenation of a sequence of sequences, in order. */
  function Flatten<T>(ss: seq<seq<T>>): seq<T> {
    if |ss| == 0 then [] else ss[0] + Flatten(ss[1..])
  }

  /** No value occurs twice. */
  predicate NoDuplicates<T(==)>(s: seq<T>) {
    forall i, j | 0 <= i < j < |s| :: s[i] != s[j]
  }
}
