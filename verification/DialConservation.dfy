/** Established connections are conserved: what was ever added is what is
    established now plus what was removed and counted under one of the four
    reasons, up to counter updates still in progress. */
module DialConservation {
  import opened Options
  import opened Runs
  import opened DialProtocol
  import opened DialProofs
  import opened DialTallies
  import DialSteps

  function ValuesOf<K, V>(m: map<K, V>): set<V> { set k | k in m :: m[k] }

  /** An injective map has as many keys as values. */
  lemma {:induction false} KeysAndValues<K, V>(m: map<K, V>)
    requires forall j, k | j in m && k in m && j != k :: m[j] != m[k]
    ensures |m| == |ValuesOf(m)|
  {
    if |m| == 0 {
      assert ValuesOf(m) == {};
    } else {
      var k :| k in m;
      var n := m - {k};
      KeysAndValues(n);
      assert m.Keys == n.Keys + {k};
      forall v | v in ValuesOf(m) ensures v in ValuesOf(n) + {m[k]} {
        var j :| j in m && m[j] == v;
        if j != k { assert j in n && n[j] == v; }
      }
      forall v | v in ValuesOf(n) ensures v in ValuesOf(m) && v != m[k] {
        var j :| j in n && n[j] == v;
        assert j in m && m[j] == v;
      }
      assert ValuesOf(m) == ValuesOf(n) + {m[k]};
    }
  }

  lemma EstablishedIsLive(s: State)
    requires Inv(s)
    ensures |s.established| == |LiveSet(s)|
  {
    forall j, k | j in s.established && k in s.established && j != k ensures s.established[j] != s.established[k] {
      assert Key(s, s.established[j]) == j && Key(s, s.established[k]) == k;
    }
    KeysAndValues(s.established);
    forall d | d in ValuesOf(s.established) ensures d in LiveSet(s) { assert DialInv(ViewOf(s, d)); }
    forall d | d in LiveSet(s) ensures d in ValuesOf(s.established) {
      assert DialInv(ViewOf(s, d));
      assert Key(s, d) in s.established && s.established[Key(s, d)] == d;
    }
    assert ValuesOf(s.established) == LiveSet(s);
  }

  lemma TwoParts<T>(whole: set<T>, a: set<T>, b: set<T>)
    requires a !! b && (forall x | x in whole :: x in a || x in b) && a <= whole && b <= whole
    ensures |whole| == |a| + |b|
  {
    assert whole == a + b;
  }

  function CountedByAny(s: State): set<DialId> { set d | d in s.dials && s.dials[d].counted }

  lemma PartitionOfCounted(s: State)
    requires Light(s)
    ensures |CountedByAny(s)| == |CountedSet(s, FrontendClose)| + |CountedSet(s, SendResponse)|
                                 + |CountedSet(s, CloseResponse)| + |CountedSet(s, BackendClose)|
  {
    var a := CountedSet(s, FrontendClose) + CountedSet(s, SendResponse);
    var b := CountedSet(s, CloseResponse) + CountedSet(s, BackendClose);
    forall d | d in CountedByAny(s) ensures d in a || d in b { Sorted(s, d); }
    TwoParts(a, CountedSet(s, FrontendClose), CountedSet(s, SendResponse));
    TwoParts(b, CountedSet(s, CloseResponse), CountedSet(s, BackendClose));
    TwoParts(CountedByAny(s), a, b);
  }

  lemma Partition(s: State)
    requires Light(s)
    ensures |AddedSet(s)| == |LiveSet(s)| + |UncountedSet(s)| + |CountedByAny(s)|
  {
    var removed := UncountedSet(s) + CountedByAny(s);
    TwoParts(removed, UncountedSet(s), CountedByAny(s));
    TwoParts(AddedSet(s), LiveSet(s), removed);
  }

  lemma Sorted(s: State, d: DialId)
    requires Light(s) && d in CountedByAny(s)
    ensures || d in CountedSet(s, FrontendClose) || d in CountedSet(s, SendResponse)
            || d in CountedSet(s, CloseResponse) || d in CountedSet(s, BackendClose)
  {
    match s.dials[d].removed
    case Some(FrontendClose) =>
    case Some(SendResponse) =>
    case Some(CloseResponse) =>
    case Some(BackendClose) =>
    case None =>
  }

  ghost predicate Both(s: State) { Inv(s) && Tallied(s) }

  lemma BothAlways(actions: seq<Action>)
    ensures Both(Run(Step, INITIAL, actions))
  {
    forall t, a | Both(t) ensures Both(Step(t, a)) {
      InvIsLight(t);
      StepTallied(t, a);
      DialSteps.StepKeepsInv(t, a);
    }
    assert AddedSet(INITIAL) == {};
    forall r: Reason ensures CountedSet(INITIAL, r) == {} {}
    Invariance(Step, Both, INITIAL, actions);
  }

  /** In every reachable state: connections ever added == connections established
      + connections counted closed, over all reasons + removals being counted. */
  lemma ConnectionsAreConserved(actions: seq<Action>)
    ensures var s := Run(Step, INITIAL, actions);
            s.addedTotal == |s.established| + |UncountedSet(s)|
                            + ClosedTotal(s, FrontendClose) + ClosedTotal(s, SendResponse)
                            + ClosedTotal(s, CloseResponse) + ClosedTotal(s, BackendClose)
  {
    BothAlways(actions);
    var s := Run(Step, INITIAL, actions);
    EstablishedIsLive(s);
    InvIsLight(s);
    Partition(s);
    PartitionOfCounted(s);
  }
}
