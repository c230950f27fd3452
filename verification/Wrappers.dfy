/** Optional values, and the death of a process. */
module Wrappers {

  datatype Option<+T> = None | Some(value: T) {
    function GetOr(default: T): T {
      if Some? then value else default
    }
  }

  predicate Distinct<T(==)>(xs: seq<T>) {
    forall i, j | 0 <= i < j < |xs| :: xs[i] != xs[j]
  }

  /** Whether the process dies now; one that is not mortal never does. */
  method Dies(mortal: bool) returns (dead: bool)
    ensures dead ==> mortal
  {
    dead := *;
    dead := dead && mortal;
  }
}
