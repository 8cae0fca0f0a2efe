/** Optional values, results with an error payload, and facts about sequences used throughout the model. */
module Wrappers {

  datatype Option<+T> = None | Some(value: T) {
    /** The wrapped value, or `default` when there is none. */
    function GetOr(default: T): T {
      match this
      case Some(v) => v
      case None => default
    }
  }

  datatype Result<+T, +E> = Success(value: T) | Failure(error: E)

  /** Concatenation regroups freely; stated once so that proofs do not have to rediscover it. */
  lemma AppendAssoc<T>(a: seq<T>, b: seq<T>, c: seq<T>)
    ensures a + b + c == a + (b + c)
  {
  }

  /** An element of a prefix is the element of the whole sequence at the same index. */
  lemma PrefixAt<T>(a: seq<T>, b: seq<T>, i: nat)
    requires |b| <= |a| && a[..|b|] == b && i < |b|
    ensures a[i] == b[i]
  {
    assert a[..|b|][i] == a[i];
  }
}
