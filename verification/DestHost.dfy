/** DestHostBackendManager: backends found by the host a request is for. */
module DestHost {
  import opened Options
  import opened Runs
  import opened Ranging
  import opened RoutingIndex
  import opened BackendStorage

  // ----- The storage, one identifier at a time -----

  function Lookup(x: Index, key: Id): seq<Backend> { if key in x.backends then x.backends[key] else [] }

  function AddAll(x: Index, ids: seq<Id>, b: Backend): Index
    decreases |ids|
  {
    if ids == [] then x else AddAll(Add(x, ids[0], b, false, false), ids[1..], b)
  }

  function RemoveAll(x: Index, ids: seq<Id>, b: Backend): Index
    decreases |ids|
  {
    if ids == [] then x else RemoveAll(Remove(x, ids[0], b, false, false), ids[1..], b)
  }

  function Appended(s: seq<Backend>, b: Backend): seq<Backend> { if b in s then s else s + [b] }

  lemma RemoveOne(x: Index, id: Id, b: Backend)
    requires MapInv(x.backends)
    ensures MapInv(Remove(x, id, b, false, false).backends)
    ensures forall key :: Lookup(Remove(x, id, b, false, false), key)
                          == if key == id then Without(Lookup(x, key), b) else Lookup(x, key)
  {
    if id in x.backends { RemoveEntryKeepsMap(x, id, b); }
  }

  /** Every key advertised gets the backend at its end, once; other keys keep theirs. */
  lemma {:induction false} AddAllLookup(x: Index, ids: seq<Id>, b: Backend, key: Id)
    requires MapInv(x.backends)
    ensures MapInv(AddAll(x, ids, b).backends)
    ensures Lookup(AddAll(x, ids, b), key) == if key in ids then Appended(Lookup(x, key), b) else Lookup(x, key)
    decreases |ids|
  {
    if ids != [] {
      AddKeepsMap(x, ids[0], b, false, false);
      AddAllLookup(Add(x, ids[0], b, false, false), ids[1..], b, key);
      assert key in ids <==> key == ids[0] || key in ids[1..];
    }
  }

  lemma {:induction false} RemoveAllLookup(x: Index, ids: seq<Id>, b: Backend, key: Id)
    requires MapInv(x.backends)
    ensures MapInv(RemoveAll(x, ids, b).backends)
    ensures Lookup(RemoveAll(x, ids, b), key) == if key in ids then Without(Lookup(x, key), b) else Lookup(x, key)
    decreases |ids|
  {
    if ids != [] {
      RemoveOne(x, ids[0], b);
      RemoveAllLookup(Remove(x, ids[0], b, false, false), ids[1..], b, key);
      assert key in ids <==> key == ids[0] || key in ids[1..];
      WithoutAbsent(Without(Lookup(x, key), b), b);
    }
  }

  // ----- The specification -----

  /** The registered backends that advertise `key`, in order of registration. */
  function Advertising(registered: seq<Backend>, ids: Backend -> seq<Id>, key: Id): (r: seq<Backend>)
    ensures forall b :: b in r <==> b in registered && key in ids(b)
  {
    if registered == [] then []
    else
      var n := |registered| - 1;
      assert registered == registered[..n] + [registered[n]];
      Advertising(registered[..n], ids, key) + if key in ids(registered[n]) then [registered[n]] else []
  }

  lemma AdvertisingAppend(registered: seq<Backend>, ids: Backend -> seq<Id>, key: Id, b: Backend)
    ensures Advertising(registered + [b], ids, key)
            == Advertising(registered, ids, key) + if key in ids(b) then [b] else []
  {
    assert (registered + [b])[..|registered|] == registered;
  }

  lemma {:induction false} AdvertisingWithout(registered: seq<Backend>, ids: Backend -> seq<Id>, key: Id, b: Backend)
    ensures Advertising(Without(registered, b), ids, key) == Without(Advertising(registered, ids, key), b)
  {
    if registered != [] {
      var n := |registered| - 1;
      var front, last := registered[..n], registered[n];
      assert registered == front + [last];
      AdvertisingWithout(front, ids, key, b);
      WithoutConcat(front, [last], b);
      WithoutConcat(Advertising(front, ids, key), if key in ids(last) then [last] else [], b);
      assert Without([last], b) == if last == b then [] else [last];
      if last != b {
        AdvertisingAppend(Without(front, b), ids, key, last);
      } else {
        assert Without(front, b) + [] == Without(front, b);
      }
    }
  }

  datatype Registry = Registry(index: Index, registered: seq<Backend>)

  datatype Action = Register(b: Backend) | Unregister(b: Backend)

  function Step(ids: Backend -> seq<Id>, s: Registry, a: Action): Registry {
    match a
    case Register(b) => Registry(AddAll(s.index, ids(b), b), Appended(s.registered, b))
    case Unregister(b) => Registry(RemoveAll(s.index, ids(b), b), Without(s.registered, b))
  }

  ghost predicate Inv(ids: Backend -> seq<Id>, s: Registry) {
    && NoDup(s.registered) && MapInv(s.index.backends)
    && forall key :: Lookup(s.index, key) == Advertising(s.registered, ids, key)
  }

  lemma RegisterKeepsInv(ids: Backend -> seq<Id>, s: Registry, b: Backend)
    requires Inv(ids, s)
    ensures Inv(ids, Step(ids, s, Register(b)))
  {
    AddAllLookup(s.index, ids(b), b, "");
    forall key ensures Lookup(AddAll(s.index, ids(b), b), key) == Advertising(Appended(s.registered, b), ids, key) {
      AddAllLookup(s.index, ids(b), b, key);
      if b !in s.registered { AdvertisingAppend(s.registered, ids, key, b); }
    }
  }

  lemma UnregisterKeepsInv(ids: Backend -> seq<Id>, s: Registry, b: Backend)
    requires Inv(ids, s)
    ensures Inv(ids, Step(ids, s, Unregister(b)))
  {
    WithoutKeepsNoDup(s.registered, b);
    RemoveAllLookup(s.index, ids(b), b, "");
    forall key ensures Lookup(RemoveAll(s.index, ids(b), b), key) == Advertising(Without(s.registered, b), ids, key) {
      RemoveAllLookup(s.index, ids(b), b, key);
      AdvertisingWithout(s.registered, ids, key, b);
      if key !in ids(b) { WithoutAbsent(Lookup(s.index, key), b); }
    }
  }

  lemma StepKeepsInv(ids: Backend -> seq<Id>, s: Registry, a: Action)
    requires Inv(ids, s)
    ensures Inv(ids, Step(ids, s, a))
  {
    match a
    case Register(b) => RegisterKeepsInv(ids, s, b);
    case Unregister(b) => UnregisterKeepsInv(ids, s, b);
  }

  /** After every run of AddBackend and RemoveBackend the map holds, for every key, the
      registered backends that advertise it, each once and in order of registration,
      and no key that none advertises. */
  lemma MapIsSpecification(ids: Backend -> seq<Id>, actions: seq<Action>)
    ensures var s := Run((t, a) => Step(ids, t, a), Registry(EMPTY_INDEX, []), actions);
            && (forall key :: Lookup(s.index, key) == Advertising(s.registered, ids, key))
            && (forall key | key in s.index.backends :: s.index.backends[key] != [])
            && NoDup(s.registered)
  {
    var step := (t: Registry, a: Action) => Step(ids, t, a);
    forall t, a | Inv(ids, t) ensures Inv(ids, step(t, a)) { StepKeepsInv(ids, t, a); }
    Invariance(step, t => Inv(ids, t), Registry(EMPTY_INDEX, []), actions);
  }

  // ----- Calls that run at once -----

  /** How far the call of AddBackend or RemoveBackend for one backend has got with its
      identifiers: the storage is locked for each of them separately. */
  datatype Progress = Out | Adding(done: nat) | In | Removing(done: nat)

  /** Stamps record when a backend was added under a key. */
  datatype Shared = Shared(index: Index, calls: map<Backend, Progress>, stamps: map<(Id, Backend), nat>, clock: nat)

  datatype Call = BeginAdd(b: Backend) | AddNext(b: Backend) | BeginRemove(b: Backend) | RemoveNext(b: Backend)

  const NOTHING := Shared(EMPTY_INDEX, map[], map[], 0)

  function ProgressOf(s: Shared, b: Backend): Progress { if b in s.calls then s.calls[b] else Out }

  function StampOf(s: Shared, key: Id, b: Backend): nat { if (key, b) in s.stamps then s.stamps[(key, b)] else 0 }

  function AddStep(s: Shared, id: Id, b: Backend, done: nat): Shared {
    Shared(Add(s.index, id, b, false, false), s.calls[b := Adding(done + 1)],
           if b in Lookup(s.index, id) then s.stamps else s.stamps[(id, b) := s.clock], s.clock + 1)
  }

  function RemoveStep(s: Shared, id: Id, b: Backend, done: nat): Shared {
    s.(index := Remove(s.index, id, b, false, false), calls := s.calls[b := Removing(done + 1)])
  }

  function CallStep(ids: Backend -> seq<Id>, s: Shared, a: Call): Shared {
    match (a, ProgressOf(s, a.b))
    case (BeginAdd(b), Out) => s.(calls := s.calls[b := Adding(0)])
    case (AddNext(b), Adding(k)) => if k < |ids(b)| then AddStep(s, ids(b)[k], b, k) else s.(calls := s.calls[b := In])
    case (BeginRemove(b), In) => s.(calls := s.calls[b := Removing(0)])
    case (RemoveNext(b), Removing(k)) =>
      if k < |ids(b)| then RemoveStep(s, ids(b)[k], b, k) else s.(calls := s.calls[b := Out])
    case _ => s
  }

  /** The backend has been added under `key` and not yet removed. */
  predicate Holds(ids: seq<Id>, p: Progress, key: Id) {
    match p
    case Out => false
    case Adding(k) => k <= |ids| && key in ids[..k]
    case In => key in ids
    case Removing(k) => k <= |ids| && key in ids && key !in ids[..k]
  }

  ghost predicate InOrder(s: Shared, key: Id, list: seq<Backend>) {
    && (forall b | b in list :: StampOf(s, key, b) < s.clock)
    && (forall i, j | 0 <= i < j < |list| :: StampOf(s, key, list[i]) < StampOf(s, key, list[j]))
  }

  ghost predicate KeyInv(ids: Backend -> seq<Id>, s: Shared, key: Id) {
    && (forall b :: b in Lookup(s.index, key) <==> Holds(ids(b), ProgressOf(s, b), key))
    && InOrder(s, key, Lookup(s.index, key))
  }

  ghost predicate ProgressInv(ids: Backend -> seq<Id>, s: Shared) {
    forall b | b in s.calls :: match s.calls[b]
                               case Adding(k) => k <= |ids(b)|
                               case Removing(k) => k <= |ids(b)|
                               case _ => true
  }

  ghost predicate SharedInv(ids: Backend -> seq<Id>, s: Shared) {
    MapInv(s.index.backends) && ProgressInv(ids, s) && forall key :: KeyInv(ids, s, key)
  }

  lemma {:induction false} WithoutKeepsOrder(s: Shared, key: Id, list: seq<Backend>, b: Backend)
    requires InOrder(s, key, list)
    ensures InOrder(s, key, Without(list, b))
  {
    if list != [] {
      var rest := Without(list[1..], b);
      assert forall i | 0 <= i < |list| - 1 :: list[1..][i] == list[i + 1];
      WithoutKeepsOrder(s, key, list[1..], b);
      forall j | 0 <= j < |rest| ensures StampOf(s, key, list[0]) < StampOf(s, key, rest[j]) {
        assert rest[j] in list[1..];
      }
    }
  }

  lemma NextKey(ids: seq<Id>, k: nat, key: Id)
    requires k < |ids|
    ensures key in ids[..k + 1] <==> key in ids[..k] || key == ids[k]
  {
    assert ids[..k + 1] == ids[..k] + [ids[k]];
  }

  lemma AddStepKeepsOrder(s: Shared, id: Id, b: Backend, done: nat, key: Id)
    requires InOrder(s, key, Lookup(s.index, key))
    ensures var t := AddStep(s, id, b, done); InOrder(t, key, Lookup(t.index, key))
  {
    var t := AddStep(s, id, b, done);
    var list := Lookup(s.index, key);
    assert forall x | x in list :: StampOf(t, key, x) == StampOf(s, key, x);
    assert Lookup(t.index, key) == if key == id then Appended(list, b) else list;
  }

  lemma AddStepKeepsKey(ids: Backend -> seq<Id>, s: Shared, b: Backend, k: nat, key: Id)
    requires KeyInv(ids, s, key) && ProgressOf(s, b) == Adding(k) && k < |ids(b)|
    ensures KeyInv(ids, AddStep(s, ids(b)[k], b, k), key)
  {
    var t := AddStep(s, ids(b)[k], b, k);
    AddStepKeepsOrder(s, ids(b)[k], b, k, key);
    NextKey(ids(b), k, key);
    forall x ensures x in Lookup(t.index, key) <==> Holds(ids(x), ProgressOf(t, x), key) {
      assert x in Lookup(s.index, key) <==> Holds(ids(x), ProgressOf(s, x), key);
    }
  }

  lemma RemoveStepKeepsKey(ids: Backend -> seq<Id>, s: Shared, b: Backend, k: nat, key: Id)
    requires MapInv(s.index.backends) && KeyInv(ids, s, key) && ProgressOf(s, b) == Removing(k) && k < |ids(b)|
    ensures KeyInv(ids, RemoveStep(s, ids(b)[k], b, k), key)
  {
    NextKey(ids(b), k, key);
    RemoveOne(s.index, ids(b)[k], b);
    WithoutKeepsOrder(s, key, Lookup(s.index, key), b);
  }

  /** A call begins or ends. */
  lemma EdgeKeepsKey(ids: Backend -> seq<Id>, s: Shared, b: Backend, p: Progress, key: Id)
    requires KeyInv(ids, s, key) && Holds(ids(b), p, key) == Holds(ids(b), ProgressOf(s, b), key)
    ensures KeyInv(ids, s.(calls := s.calls[b := p]), key)
  {}

  lemma AddNextKeepsInv(ids: Backend -> seq<Id>, s: Shared, b: Backend, k: nat)
    requires SharedInv(ids, s) && ProgressOf(s, b) == Adding(k)
    ensures SharedInv(ids, CallStep(ids, s, AddNext(b)))
  {
    var t := CallStep(ids, s, AddNext(b));
    forall key ensures KeyInv(ids, t, key) {
      if k < |ids(b)| {
        AddStepKeepsKey(ids, s, b, k, key);
      } else {
        assert ids(b)[..k] == ids(b);
        EdgeKeepsKey(ids, s, b, In, key);
      }
    }
    if k < |ids(b)| { AddKeepsMap(s.index, ids(b)[k], b, false, false); }
  }

  lemma RemoveNextKeepsInv(ids: Backend -> seq<Id>, s: Shared, b: Backend, k: nat)
    requires SharedInv(ids, s) && ProgressOf(s, b) == Removing(k)
    ensures SharedInv(ids, CallStep(ids, s, RemoveNext(b)))
  {
    var t := CallStep(ids, s, RemoveNext(b));
    forall key ensures KeyInv(ids, t, key) {
      if k < |ids(b)| {
        RemoveStepKeepsKey(ids, s, b, k, key);
      } else {
        assert ids(b)[..k] == ids(b);
        EdgeKeepsKey(ids, s, b, Out, key);
      }
    }
    if k < |ids(b)| { RemoveOne(s.index, ids(b)[k], b); }
  }

  lemma BeginKeepsInv(ids: Backend -> seq<Id>, s: Shared, b: Backend)
    requires SharedInv(ids, s)
    ensures SharedInv(ids, CallStep(ids, s, BeginAdd(b))) && SharedInv(ids, CallStep(ids, s, BeginRemove(b)))
  {
    forall key
      ensures KeyInv(ids, CallStep(ids, s, BeginAdd(b)), key) && KeyInv(ids, CallStep(ids, s, BeginRemove(b)), key)
    {
      if ProgressOf(s, b).Out? { EdgeKeepsKey(ids, s, b, Adding(0), key); }
      if ProgressOf(s, b).In? { EdgeKeepsKey(ids, s, b, Removing(0), key); }
    }
  }

  lemma CallKeepsInv(ids: Backend -> seq<Id>, s: Shared, a: Call)
    requires SharedInv(ids, s)
    ensures SharedInv(ids, CallStep(ids, s, a))
  {
    match (a, ProgressOf(s, a.b))
    case (AddNext(b), Adding(k)) => AddNextKeepsInv(ids, s, b, k);
    case (RemoveNext(b), Removing(k)) => RemoveNextKeepsInv(ids, s, b, k);
    case _ => BeginKeepsInv(ids, s, a.b);
  }

  /** In every interleaving of calls for any number of backends, at every moment, the map
      holds under each key exactly the backends that were added under it and not yet
      removed, each once, in the order in which they were added under that key; so
      between calls those registered that advertise it. */
  lemma MapUnderConcurrentCalls(ids: Backend -> seq<Id>, actions: seq<Call>, key: Id)
    ensures var s := Run((t, a) => CallStep(ids, t, a), NOTHING, actions);
            && (forall b :: b in Lookup(s.index, key) <==> Holds(ids(b), ProgressOf(s, b), key))
            && InOrder(s, key, Lookup(s.index, key))
            && (key in s.index.backends ==> s.index.backends[key] != [] && NoDup(s.index.backends[key]))
  {
    var step := (t: Shared, a: Call) => CallStep(ids, t, a);
    forall t, a | SharedInv(ids, t) ensures SharedInv(ids, step(t, a)) { CallKeepsInv(ids, t, a); }
    Invariance(step, t => SharedInv(ids, t), NOTHING, actions);
    assert KeyInv(ids, Run(step, NOTHING, actions), key);
  }

  // ----- The object -----

  datatype Identifiers = Identifiers(ipv4: seq<Id>, ipv6: seq<Id>, host: seq<Id>)

  function All(i: Identifiers): seq<Id> { i.ipv4 + i.ipv6 + i.host }

  lemma {:induction false} AddAllConcat(x: Index, s: seq<Id>, t: seq<Id>, b: Backend)
    ensures AddAll(x, s + t, b) == AddAll(AddAll(x, s, b), t, b)
    decreases |s|
  {
    if s == [] {
      assert s + t == t;
    } else {
      assert (s + t)[1..] == s[1..] + t;
      AddAllConcat(Add(x, s[0], b, false, false), s[1..], t, b);
    }
  }

  lemma {:induction false} RemoveAllConcat(x: Index, s: seq<Id>, t: seq<Id>, b: Backend)
    ensures RemoveAll(x, s + t, b) == RemoveAll(RemoveAll(x, s, b), t, b)
    decreases |s|
  {
    if s == [] {
      assert s + t == t;
    } else {
      assert (s + t)[1..] == s[1..] + t;
      RemoveAllConcat(Remove(x, s[0], b, false, false), s[1..], t, b);
    }
  }

  class Manager {
    const storage: Storage

    constructor (storage: Storage)
      ensures this.storage == storage
    {
      this.storage := storage;
    }

    ghost predicate Valid()
      reads this, storage, storage.flags
    {
      storage.Valid() && !storage.maintain && storage.idTypes == {IPv4, IPv6, Host}
    }

    method AddUnder(ids: seq<Id>, idType: IdType, b: Backend)
      requires Valid() && idType in storage.idTypes
      modifies storage, storage.flags
      ensures Valid() && storage.State() == AddAll(old(storage.State()), ids, b)
    {
      for i := 0 to |ids|
        invariant Valid() && storage.State() == AddAll(old(storage.State()), ids[..i], b)
      {
        assert ids[..i + 1] == ids[..i] + [ids[i]];
        AddAllConcat(old(storage.State()), ids[..i], [ids[i]], b);
        assert [ids[i]][1..] == [];
        var _ := storage.AddBackend(ids[i], idType, b);
      }
      assert ids[..|ids|] == ids;
    }

    method RemoveUnder(ids: seq<Id>, idType: IdType, b: Backend)
      requires Valid() && idType in storage.idTypes
      modifies storage, storage.flags
      ensures Valid() && storage.State() == RemoveAll(old(storage.State()), ids, b)
    {
      for i := 0 to |ids|
        invariant Valid() && storage.State() == RemoveAll(old(storage.State()), ids[..i], b)
      {
        assert ids[..i + 1] == ids[..i] + [ids[i]];
        RemoveAllConcat(old(storage.State()), ids[..i], [ids[i]], b);
        assert [ids[i]][1..] == [];
        var _ := storage.RemoveBackend(ids[i], idType, b);
      }
      assert ids[..|ids|] == ids;
    }

    method AddBackend(b: Backend, ids: Identifiers)
      requires Valid()
      modifies storage, storage.flags
      ensures Valid() && storage.State() == AddAll(old(storage.State()), All(ids), b)
    {
      AddUnder(ids.ipv4, IPv4, b);
      AddUnder(ids.ipv6, IPv6, b);
      AddUnder(ids.host, Host, b);
      AddAllConcat(old(storage.State()), ids.ipv4 + ids.ipv6, ids.host, b);
      AddAllConcat(old(storage.State()), ids.ipv4, ids.ipv6, b);
    }

    method RemoveBackend(b: Backend, ids: Identifiers)
      requires Valid()
      modifies storage, storage.flags
      ensures Valid() && storage.State() == RemoveAll(old(storage.State()), All(ids), b)
    {
      RemoveUnder(ids.ipv4, IPv4, b);
      RemoveUnder(ids.ipv6, IPv6, b);
      RemoveUnder(ids.host, Host, b);
      RemoveAllConcat(old(storage.State()), ids.ipv4 + ids.ipv6, ids.host, b);
      RemoveAllConcat(old(storage.State()), ids.ipv4, ids.ipv6, b);
    }

    /** Backend: one is found if and only if the host is given and advertised. It is the
        first that is not draining: those before it are; and if it was draining before
        the call, it is the first of all and all are draining by the end. */
    method Backend(destHost: Id) returns (r: Option<Backend>)
      requires Valid()
      modifies storage.flags
      ensures Valid() && old(storage.flags.draining) <= storage.flags.draining
      ensures r.Some? <==> destHost != "" && destHost in storage.backends
      ensures r.Some? ==>
                var list, flags := storage.backends[destHost], storage.flags.draining;
                exists i :: 0 <= i < |list| && list[i] == r.value && (forall j | 0 <= j < i :: list[j] in flags)
                  && (r.value in old(storage.flags.draining) ==>
                        i == 0 && forall j | 0 <= j < |list| :: list[j] in flags)
    {
      if |storage.backends| == 0 || destHost == "" || destHost !in storage.backends {
        return None;
      }
      var list := storage.backends[destHost];
      var firstDraining: Option<Backend> := None;
      for i := 0 to |list|
        invariant Valid() && old(storage.flags.draining) <= storage.flags.draining
        invariant forall j | 0 <= j < i :: list[j] in storage.flags.draining
        invariant firstDraining == if i == 0 then None else Some(list[0])
      {
        var drains := storage.flags.IsDraining(list[i]);
        if !drains {
          return Some(list[i]);
        }
        if firstDraining.None? {
          firstDraining := Some(list[i]);
        }
      }
      r := firstDraining;
    }
  }
}
