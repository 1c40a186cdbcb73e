/** Ranging over a map: its keys come once each, in no particular order. */
module Ranging {
  predicate NoDup<T(==)>(s: seq<T>) { forall i, j | 0 <= i < j < |s| :: s[i] != s[j] }

  method Any<T>(keys: set<T>) returns (k: T)
    requires keys != {}
    ensures k in keys
  {
    k :| k in keys;
  }

  /** A set that is not empty has an element. */
  lemma Pick<T>(keys: set<T>) returns (k: T)
    requires |keys| > 0
    ensures k in keys
  {
    k :| k in keys;
  }
}
