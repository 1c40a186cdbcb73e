/** The backend storage as a value. The draining flag of a backend is published outside
    the lock, so each operation gets the flag it happened to read. */
module RoutingIndex {
  import opened Runs
  import opened Ranging

  type Id = string
  type Backend = nat

  datatype Index = Index(backends: map<Id, seq<Backend>>, nonDraining: seq<Id>, draining: seq<Id>)

  const EMPTY_INDEX := Index(map[], [], [])

  // ----- Lists -----

  /** removeIdentifier: the first occurrence is replaced by the last element. */
  function SwapRemove(ids: seq<Id>, id: Id): seq<Id> { SwapRemoveFrom(ids, id, 0) }

  function SwapRemoveFrom(ids: seq<Id>, id: Id, i: nat): seq<Id>
    decreases |ids| - i
  {
    if i >= |ids| then ids
    else if ids[i] == id then ids[i := ids[|ids| - 1]][..|ids| - 1]
    else SwapRemoveFrom(ids, id, i + 1)
  }

  lemma {:induction false} SwapRemoveFromFinds(ids: seq<Id>, id: Id, i: nat)
    requires id !in ids[..if i <= |ids| then i else |ids|]
    ensures id !in ids ==> SwapRemoveFrom(ids, id, i) == ids
    ensures id in ids ==>
              exists k :: && 0 <= k < |ids| && ids[k] == id
                          && SwapRemoveFrom(ids, id, i) == ids[k := ids[|ids| - 1]][..|ids| - 1]
    decreases |ids| - i
  {
    if i < |ids| {
      if ids[i] != id {
        assert ids[..i + 1] == ids[..i] + [ids[i]];
        SwapRemoveFromFinds(ids, id, i + 1);
      }
    } else {
      assert ids[..|ids|] == ids;
    }
  }

  /** Swap-remove takes exactly the one identifier out of a list without duplicates. */
  lemma SwapRemoveRemoves(ids: seq<Id>, id: Id)
    requires NoDup(ids)
    ensures NoDup(SwapRemove(ids, id))
    ensures forall x :: x in SwapRemove(ids, id) <==> x in ids && x != id
    ensures |SwapRemove(ids, id)| == |ids| - (if id in ids then 1 else 0)
  {
    SwapRemoveFromFinds(ids, id, 0);
    if id in ids {
      var k :| 0 <= k < |ids| && ids[k] == id && SwapRemove(ids, id) == ids[k := ids[|ids| - 1]][..|ids| - 1];
      var r := SwapRemove(ids, id);
      assert forall i | 0 <= i < |r| :: r[i] == if i == k then ids[|ids| - 1] else ids[i];
      forall x | x in ids && x != id ensures x in r {
        var j :| 0 <= j < |ids| && ids[j] == x;
        if j == |ids| - 1 { assert r[k] == x; } else { assert r[j] == x; }
      }
    }
  }

  /** The list without `b`, in the same order. */
  function Without(s: seq<Backend>, b: Backend): (r: seq<Backend>)
    ensures forall x :: x in r <==> x in s && x != b
    ensures |r| <= |s|
  {
    if s == [] then [] else if s[0] == b then Without(s[1..], b) else [s[0]] + Without(s[1..], b)
  }

  lemma {:induction false} WithoutConcat(s: seq<Backend>, t: seq<Backend>, b: Backend)
    ensures Without(s + t, b) == Without(s, b) + Without(t, b)
  {
    if s == [] {
      assert s + t == t;
    } else {
      assert (s + t)[1..] == s[1..] + t;
      WithoutConcat(s[1..], t, b);
    }
  }

  lemma {:induction false} WithoutAbsent(s: seq<Backend>, b: Backend)
    requires b !in s
    ensures Without(s, b) == s
  {
    if s != [] { WithoutAbsent(s[1..], b); }
  }

  /** Where `b` occurs once, the list without it is what is before and after. */
  lemma {:induction false} WithoutOne(s: seq<Backend>, at: nat, b: Backend)
    requires NoDup(s) && at < |s| && s[at] == b
    ensures Without(s, b) == s[..at] + s[at + 1..]
  {
    if at == 0 {
      assert b !in s[1..];
      WithoutAbsent(s[1..], b);
    } else {
      var rest := s[1..];
      assert s[0] != b && NoDup(rest);
      WithoutOne(rest, at - 1, b);
      assert s[..at] == [s[0]] + rest[..at - 1] && s[at + 1..] == rest[at..];
    }
  }

  lemma {:induction false} WithoutKeepsNoDup(s: seq<Backend>, b: Backend)
    requires NoDup(s)
    ensures NoDup(Without(s, b))
  {
    if s != [] {
      WithoutKeepsNoDup(s[1..], b);
      assert s[0] !in s[1..];
      if s[0] != b {
        var r := Without(s[1..], b);
        assert forall j | 0 <= j < |r| :: r[j] in s[1..];
      }
    }
  }

  // ----- The operations -----

  predicate PrimaryDrains(x: Index, flags: set<Backend>, id: Id) {
    id in x.backends && x.backends[id] != [] && x.backends[id][0] in flags
  }

  /** refreshIdentifierState, reading `drains` for the primary backend. */
  function Refresh(x: Index, id: Id, drains: bool): Index {
    if id !in x.backends || x.backends[id] == [] then
      x.(nonDraining := SwapRemove(x.nonDraining, id), draining := SwapRemove(x.draining, id))
    else if drains then
      x.(nonDraining := SwapRemove(x.nonDraining, id),
         draining := if id in x.draining then x.draining else x.draining + [id])
    else
      x.(draining := SwapRemove(x.draining, id),
         nonDraining := if id in x.nonDraining then x.nonDraining else x.nonDraining + [id])
  }

  /** addBackend, reading `drains` for the backend added. */
  function Add(x: Index, id: Id, b: Backend, drains: bool, maintain: bool): Index {
    if id in x.backends then
      if b in x.backends[id] then x else x.(backends := x.backends[id := x.backends[id] + [b]])
    else
      var y := x.(backends := x.backends[id := [b]]);
      if !maintain then y
      else if drains then y.(draining := x.draining + [id])
      else y.(nonDraining := x.nonDraining + [id])
  }

  /** removeBackend: the entry goes when its last connection does. */
  function RemoveEntry(x: Index, id: Id, b: Backend): Index
    requires id in x.backends
  {
    var rest := Without(x.backends[id], b);
    x.(backends := if rest == [] then x.backends - {id} else x.backends[id := rest])
  }

  function Remove(x: Index, id: Id, b: Backend, drains: bool, maintain: bool): Index {
    if id !in x.backends then x
    else if maintain then Refresh(RemoveEntry(x, id, b), id, drains)
    else RemoveEntry(x, id, b)
  }

  /** markIdentifierBackendDraining: only the primary backend counts. */
  function Mark(x: Index, id: Id, b: Backend, drains: bool): Index {
    if id !in x.backends || x.backends[id] == [] || x.backends[id][0] != b then x else Refresh(x, id, drains)
  }

  // ----- What every operation keeps -----

  /** The map alone. */
  ghost predicate MapInv(backends: map<Id, seq<Backend>>) {
    forall id | id in backends :: backends[id] != [] && NoDup(backends[id])
  }

  /** Each registered identifier occurs once, in one list, others in none; and every
      identifier in the draining list has a draining primary. */
  ghost predicate IndexInv(x: Index, flags: set<Backend>) {
    && MapInv(x.backends)
    && NoDup(x.nonDraining) && NoDup(x.draining)
    && (forall id :: id in x.backends <==> id in x.nonDraining || id in x.draining)
    && (forall id | id in x.nonDraining :: id !in x.draining)
    && (forall id | id in x.draining :: PrimaryDrains(x, flags, id))
  }

  /** The index is right but for `id`, whose entry may be out of date or gone. */
  ghost predicate IndexInvExcept(x: Index, flags: set<Backend>, id: Id) {
    && MapInv(x.backends)
    && NoDup(x.nonDraining) && NoDup(x.draining)
    && (forall y | y != id :: y in x.backends <==> y in x.nonDraining || y in x.draining)
    && (forall y | y in x.nonDraining :: y !in x.draining)
    && (forall y | y in x.draining && y != id :: PrimaryDrains(x, flags, y))
  }

  lemma AppendKeepsNoDup<T>(s: seq<T>, x: T)
    requires NoDup(s) && x !in s
    ensures NoDup(s + [x])
  {}

  lemma RefreshKeepsNoDup(x: Index, id: Id, drains: bool)
    requires NoDup(x.nonDraining) && NoDup(x.draining)
    ensures NoDup(Refresh(x, id, drains).nonDraining) && NoDup(Refresh(x, id, drains).draining)
  {
    SwapRemoveRemoves(x.nonDraining, id);
    SwapRemoveRemoves(x.draining, id);
    if id !in x.nonDraining { AppendKeepsNoDup(x.nonDraining, id); }
    if id !in x.draining { AppendKeepsNoDup(x.draining, id); }
  }

  /** A refresh puts one identifier right, whatever it was before. */
  lemma RefreshRepairs(x: Index, flags: set<Backend>, id: Id, drains: bool)
    requires IndexInvExcept(x, flags, id) && (drains ==> PrimaryDrains(x, flags, id))
    ensures IndexInv(Refresh(x, id, drains), flags)
    ensures Refresh(x, id, drains).backends == x.backends
    ensures PrimaryDrains(x, flags, id) && drains && id in x.nonDraining ==>
              |Refresh(x, id, drains).nonDraining| < |x.nonDraining|
  {
    RefreshKeepsNoDup(x, id, drains);
    SwapRemoveRemoves(x.nonDraining, id);
    SwapRemoveRemoves(x.draining, id);
  }

  lemma RefreshKeepsInv(x: Index, flags: set<Backend>, id: Id, drains: bool)
    requires IndexInv(x, flags) && (drains ==> PrimaryDrains(x, flags, id))
    ensures IndexInv(Refresh(x, id, drains), flags)
  {
    RefreshRepairs(x, flags, id, drains);
  }

  lemma AddKeepsMap(x: Index, id: Id, b: Backend, drains: bool, maintain: bool)
    requires MapInv(x.backends)
    ensures MapInv(Add(x, id, b, drains, maintain).backends)
  {
    if id in x.backends && b !in x.backends[id] { AppendKeepsNoDup(x.backends[id], b); }
  }

  lemma AddKeepsInv(x: Index, flags: set<Backend>, id: Id, b: Backend, drains: bool)
    requires IndexInv(x, flags) && (drains ==> b in flags)
    ensures IndexInv(Add(x, id, b, drains, true), flags)
  {
    AddKeepsMap(x, id, b, drains, true);
  }

  lemma RemoveEntryKeepsMap(x: Index, id: Id, b: Backend)
    requires MapInv(x.backends) && id in x.backends
    ensures MapInv(RemoveEntry(x, id, b).backends)
  {
    WithoutKeepsNoDup(x.backends[id], b);
  }

  lemma RemoveKeepsInv(x: Index, flags: set<Backend>, id: Id, b: Backend, drains: bool)
    requires IndexInv(x, flags) && id in x.backends
    requires drains ==> PrimaryDrains(RemoveEntry(x, id, b), flags, id)
    ensures IndexInv(Remove(x, id, b, drains, true), flags)
  {
    RemoveEntryKeepsMap(x, id, b);
    RefreshRepairs(RemoveEntry(x, id, b), flags, id, drains);
  }

  lemma FlagsKeepInv(x: Index, flags: set<Backend>, more: set<Backend>)
    requires IndexInv(x, flags) && flags <= more
    ensures IndexInv(x, more)
  {}

  // ----- Every run -----

  datatype State = State(index: Index, flags: set<Backend>)

  /** Publishing a flag, the four operations that change the index, and the repair
      that a selection makes; each reads the flag at that moment. */
  datatype Action =
    | SetDraining(b: Backend)
    | AddBackend(id: Id, b: Backend) | RemoveBackend(id: Id, b: Backend) | MarkDraining(id: Id, b: Backend)
    | Repair(id: Id)

  function Step(s: State, a: Action): State {
    match a
    case SetDraining(b) => s.(flags := s.flags + {b})
    case AddBackend(id, b) => s.(index := Add(s.index, id, b, b in s.flags, true))
    case RemoveBackend(id, b) =>
      if id in s.index.backends
      then s.(index := Remove(s.index, id, b, PrimaryDrains(RemoveEntry(s.index, id, b), s.flags, id), true)) else s
    case MarkDraining(id, b) => s.(index := Mark(s.index, id, b, PrimaryDrains(s.index, s.flags, id)))
    case Repair(id) =>
      if id in s.index.nonDraining then s.(index := Refresh(s.index, id, PrimaryDrains(s.index, s.flags, id))) else s
  }

  ghost predicate Inv(s: State) { IndexInv(s.index, s.flags) }

  lemma StepKeepsInv(s: State, a: Action)
    requires Inv(s)
    ensures Inv(Step(s, a))
  {
    match a
    case SetDraining(b) => FlagsKeepInv(s.index, s.flags, s.flags + {b});
    case AddBackend(id, b) => AddKeepsInv(s.index, s.flags, id, b, b in s.flags);
    case RemoveBackend(id, b) =>
      if id in s.index.backends {
        RemoveKeepsInv(s.index, s.flags, id, b, PrimaryDrains(RemoveEntry(s.index, id, b), s.flags, id));
      }
    case MarkDraining(id, b) => RefreshKeepsInv(s.index, s.flags, id, PrimaryDrains(s.index, s.flags, id));
    case Repair(id) => RefreshKeepsInv(s.index, s.flags, id, PrimaryDrains(s.index, s.flags, id));
  }

  function Occurrences(ids: seq<Id>, id: Id): nat { multiset(ids)[id] }

  lemma NoDupOccursOnce(ids: seq<Id>, id: Id)
    requires NoDup(ids)
    ensures Occurrences(ids, id) == if id in ids then 1 else 0
  {
    if id in ids {
      var k :| 0 <= k < |ids| && ids[k] == id;
      assert ids == ids[..k] + [id] + ids[k + 1..];
      assert id !in ids[..k] && id !in ids[k + 1..];
    }
  }

  /** After every run, each registered identifier occurs exactly once in exactly one of
      the two lists and others in none; an identifier in the draining list has a
      draining primary; and no entry of the map is empty or holds a backend twice. */
  lemma IndexAgreesWithMap(actions: seq<Action>)
    ensures var s := Run(Step, State(EMPTY_INDEX, {}), actions);
            && (forall id :: Occurrences(s.index.nonDraining, id) + Occurrences(s.index.draining, id)
                             == if id in s.index.backends then 1 else 0)
            && (forall id | id in s.index.draining :: PrimaryDrains(s.index, s.flags, id))
            && MapInv(s.index.backends)
  {
    Always(actions);
    var s := Run(Step, State(EMPTY_INDEX, {}), actions);
    forall id
      ensures Occurrences(s.index.nonDraining, id) + Occurrences(s.index.draining, id)
              == if id in s.index.backends then 1 else 0
    {
      NoDupOccursOnce(s.index.nonDraining, id);
      NoDupOccursOnce(s.index.draining, id);
    }
  }

  /** The non-draining list may be behind: a flag is published before the list is
      updated. */
  lemma FlagBeforeMark(id: Id, b: Backend)
    ensures var s := Run(Step, State(EMPTY_INDEX, {}), [AddBackend(id, b), SetDraining(b)]);
            PrimaryDrains(s.index, s.flags, id) && id in s.index.nonDraining
  {
    var s0 := State(EMPTY_INDEX, {});
    var s1 := Step(s0, AddBackend(id, b));
    assert [AddBackend(id, b), SetDraining(b)][1..] == [SetDraining(b)];
    assert Run(Step, s1, [SetDraining(b)]) == Run(Step, Step(s1, SetDraining(b)), []);
    assert id in s1.index.nonDraining;
  }

  /** A registered identifier is listed by the draining state of its primary. */
  ghost predicate ListedRight(s: State, id: Id) {
    && id in s.index.backends && s.index.backends[id] != []
    && (id in s.index.draining <==> s.index.backends[id][0] in s.flags)
    && (id in s.index.nonDraining <==> s.index.backends[id][0] !in s.flags)
  }

  lemma Always(actions: seq<Action>)
    ensures Inv(Run(Step, State(EMPTY_INDEX, {}), actions))
  {
    forall t, a | Inv(t) ensures Inv(Step(t, a)) { StepKeepsInv(t, a); }
    Invariance(Step, Inv, State(EMPTY_INDEX, {}), actions);
  }

  /** Marking the primary, and a repair during selection, list an identifier right,
      however it was listed. */
  lemma MarkSettles(actions: seq<Action>, id: Id)
    requires id in Run(Step, State(EMPTY_INDEX, {}), actions).index.backends
    ensures var s := Run(Step, State(EMPTY_INDEX, {}), actions);
            && s.index.backends[id] != []
            && ListedRight(Step(s, MarkDraining(id, s.index.backends[id][0])), id)
            && (id in s.index.nonDraining ==> ListedRight(Step(s, Repair(id)), id))
  {
    Always(actions);
    var x := Run(Step, State(EMPTY_INDEX, {}), actions).index;
    SwapRemoveRemoves(x.nonDraining, id);
    SwapRemoveRemoves(x.draining, id);
  }

  /** So does a removal that leaves the identifier registered. */
  lemma RemoveSettles(actions: seq<Action>, id: Id, b: Backend)
    ensures var s := Run(Step, State(EMPTY_INDEX, {}), actions);
            var t := Step(s, RemoveBackend(id, b));
            id in t.index.backends ==> ListedRight(t, id)
  {
    Always(actions);
    var s := Run(Step, State(EMPTY_INDEX, {}), actions);
    if id in s.index.backends {
      RemoveEntryKeepsMap(s.index, id, b);
      SwapRemoveRemoves(s.index.nonDraining, id);
      SwapRemoveRemoves(s.index.draining, id);
    }
  }

  /** An action that may list `id` anew: one that removes a backend from it, marks it
      or repairs it. */
  predicate Relists(a: Action, id: Id) { !a.SetDraining? && !a.AddBackend? && a.id == id }

  /** What the other actions keep of `id`: its primary and the list it is in. */
  ghost predicate SameListing(s: State, t: State, id: Id) {
    && s.flags <= t.flags && id in s.index.backends && s.index.backends[id] != []
    && id in t.index.backends && t.index.backends[id] != [] && t.index.backends[id][0] == s.index.backends[id][0]
    && (id in t.index.draining <==> id in s.index.draining)
    && (id in t.index.nonDraining <==> id in s.index.nonDraining)
  }

  /** A refresh of another identifier. */
  lemma RefreshLeavesOthers(x: Index, other: Id, drains: bool, id: Id)
    requires NoDup(x.nonDraining) && NoDup(x.draining) && id != other
    ensures var y := Refresh(x, other, drains);
            && y.backends == x.backends
            && (id in y.draining <==> id in x.draining) && (id in y.nonDraining <==> id in x.nonDraining)
  {
    SwapRemoveRemoves(x.nonDraining, other);
    SwapRemoveRemoves(x.draining, other);
  }

  lemma OthersKeepListing(s: State, a: Action, id: Id)
    requires Inv(s) && id in s.index.backends && !Relists(a, id)
    ensures SameListing(s, Step(s, a), id)
  {
    match a
    case SetDraining(_) =>
    case AddBackend(_, _) =>
    case RemoveBackend(other, b) =>
      if other in s.index.backends {
        var x := RemoveEntry(s.index, other, b);
        RefreshLeavesOthers(x, other, PrimaryDrains(x, s.flags, other), id);
      }
    case MarkDraining(other, _) => RefreshLeavesOthers(s.index, other, PrimaryDrains(s.index, s.flags, other), id);
    case Repair(other) => RefreshLeavesOthers(s.index, other, PrimaryDrains(s.index, s.flags, other), id);
  }

  lemma {:induction false} RunKeepsListing(s: State, actions: seq<Action>, id: Id)
    requires Inv(s) && id in s.index.backends && forall a | a in actions :: !Relists(a, id)
    ensures SameListing(s, Run(Step, s, actions), id)
    decreases |actions|
  {
    if actions != [] {
      StepKeepsInv(s, actions[0]);
      OthersKeepListing(s, actions[0], id);
      RunKeepsListing(Step(s, actions[0]), actions[1..], id);
    }
  }

  /** From any reachable state in which an identifier is listed right, over any run that
      does not list it anew, it is listed right at the end if and only if its primary
      was not flagged as draining in between. */
  lemma ListedRightUntilFlagged(before: seq<Action>, after: seq<Action>, id: Id)
    requires ListedRight(Run(Step, State(EMPTY_INDEX, {}), before), id)
    requires forall a | a in after :: !Relists(a, id)
    ensures var s := Run(Step, State(EMPTY_INDEX, {}), before);
            var t := Run(Step, State(EMPTY_INDEX, {}), before + after);
            var primary := s.index.backends[id][0];
            ListedRight(t, id) <==> !(primary in t.flags && primary !in s.flags)
  {
    Always(before);
    RunKeepsListing(Run(Step, State(EMPTY_INDEX, {}), before), after, id);
    Compose(Step, State(EMPTY_INDEX, {}), before, after);
  }

  /** A new identifier is listed right. */
  lemma AddedIsListedRight(actions: seq<Action>, id: Id, b: Backend)
    requires id !in Run(Step, State(EMPTY_INDEX, {}), actions).index.backends
    ensures ListedRight(Step(Run(Step, State(EMPTY_INDEX, {}), actions), AddBackend(id, b)), id)
  {
    Always(actions);
  }

  // ----- The draw of two candidates -----

  /** The second draw skips the first. */
  function SecondIndex(first: nat, draw: nat): nat { if draw >= first then draw + 1 else draw }

  /** With n candidates, the first draw below n and the second below n - 1, every
      ordered pair of distinct candidates comes from exactly one pair of draws. */
  lemma DrawsAreThePairs(n: nat, first: nat, second: nat)
    requires first < n
    ensures (exists draw: nat :: draw < n - 1 && SecondIndex(first, draw) == second) <==> second < n && second != first
    ensures forall d: nat, e: nat | SecondIndex(first, d) == SecondIndex(first, e) :: d == e
  {
    if second < n && second != first {
      assert SecondIndex(first, if second > first then second - 1 else second) == second;
    }
  }
}
