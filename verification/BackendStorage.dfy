/** DefaultBackendStorage: the object behind the routing index, and the selection of a
    backend for a new dial. Each method runs under the storage's lock; the draining
    flags change at any time, but are never taken back. */
module BackendStorage {
  import opened Options
  import opened Ranging
  import opened RoutingIndex
  import opened DialCost

  /** header.IdentifierType. */
  datatype IdType = IPv4 | IPv6 | Host | UID | DefaultRoute

  /** The draining flags of all backends. */
  class Flags {
    var draining: set<Backend>

    constructor ()
      ensures draining == {}
    {
      draining := {};
    }

    /** IsDraining; other goroutines may have published flags in the meantime. */
    method IsDraining(b: Backend) returns (drains: bool)
      modifies this
      ensures old(draining) <= draining
      ensures drains <==> b in draining
    {
      var published: set<Backend> := *;
      draining := draining + published;
      drains := b in draining;
    }
  }

  /** Removing `b` from a slice while ranging over it: append shifts the rest to the
      left in the array that the range still reads, up to the old length. Exactly `b`
      goes, and the rest keeps its order. */
  method RemoveWhileRanging(a: array<Backend>, b: Backend) returns (n: nat)
    requires NoDup(a[..])
    modifies a
    ensures n <= a.Length && a[..n] == Without(old(a[..]), b)
  {
    n := a.Length;
    ghost var was := a[..];
    ghost var at := a.Length;
    for i := 0 to a.Length
      invariant 0 <= at <= a.Length
      invariant at == a.Length ==> n == a.Length && a[..] == was && b !in was[..i]
      invariant at < a.Length ==> at < i && n == a.Length - 1 && was[at] == b && a[..n] == was[..at] + was[at + 1..]
      invariant at < a.Length ==> forall j | i <= j < a.Length :: a[j] != b
    {
      if a[i] == b {
        Shift(a, i, n);
        n := n - 1;
        at := i;
        assert a[..n] == was[..at] + was[at + 1..];
      }
    }
    if at < a.Length {
      WithoutOne(was, at, b);
    } else {
      WithoutAbsent(was, b);
    }
  }

  /** append(s[:i], s[i+1:]...) on a slice of length n. */
  method Shift(a: array<Backend>, i: nat, n: nat)
    requires i < n <= a.Length
    modifies a
    ensures forall j | 0 <= j < i || n - 1 <= j < a.Length :: a[j] == old(a[j])
    ensures forall j | i <= j < n - 1 :: a[j] == old(a[j + 1])
  {
    for k := i to n - 1
      invariant forall j | 0 <= j < i || k <= j < a.Length :: a[j] == old(a[j])
      invariant forall j | i <= j < k :: a[j] == old(a[j + 1])
    {
      a[k] := a[k + 1];
    }
  }

  class Storage {
    const flags: Flags
    const maintain: bool
    const idTypes: set<IdType>     // the identifier types the storage accepts
    var backends: map<Id, seq<Backend>>
    var nonDraining: seq<Id>
    var draining: seq<Id>

    ghost function State(): Index
      reads this
    {
      Index(backends, nonDraining, draining)
    }

    ghost predicate Valid()
      reads this, flags
    {
      if maintain then IndexInv(State(), flags.draining) else MapInv(backends)
    }

    constructor (flags: Flags, maintain: bool, idTypes: set<IdType>)
      ensures Valid() && State() == EMPTY_INDEX
      ensures this.flags == flags && this.maintain == maintain && this.idTypes == idTypes
    {
      this.flags := flags;
      this.maintain := maintain;
      this.idTypes := idTypes;
      backends, nonDraining, draining := map[], [], [];
    }

    method RemoveIdentifier(ids: seq<Id>, id: Id) returns (r: seq<Id>)
      ensures r == SwapRemove(ids, id)
    {
      for i := 0 to |ids|
        invariant SwapRemove(ids, id) == SwapRemoveFrom(ids, id, i)
      {
        if ids[i] == id {
          return ids[i := ids[|ids| - 1]][..|ids| - 1];
        }
      }
      return ids;
    }

    /** refreshIdentifierState: with the index maintained, one identifier is put right,
        whatever it was before. */
    method RefreshIdentifierState(id: Id) returns (drains: bool)
      requires maintain ==> IndexInvExcept(State(), flags.draining, id)
      modifies this`nonDraining, this`draining, flags
      ensures maintain ==> Valid()
      ensures old(flags.draining) <= flags.draining
      ensures State() == Refresh(old(State()), id, drains)
      ensures drains ==> PrimaryDrains(State(), flags.draining, id)
      ensures old(PrimaryDrains(State(), flags.draining, id)) ==> drains
    {
      ghost var was := State();
      if id !in backends || |backends[id]| == 0 {
        nonDraining := RemoveIdentifier(nonDraining, id);
        draining := RemoveIdentifier(draining, id);
        drains := false;
      } else {
        drains := flags.IsDraining(backends[id][0]);
        if drains {
          nonDraining := RemoveIdentifier(nonDraining, id);
          if id !in draining {
            draining := draining + [id];
          }
        } else {
          draining := RemoveIdentifier(draining, id);
          if id !in nonDraining {
            nonDraining := nonDraining + [id];
          }
        }
      }
      if maintain { RefreshRepairs(was, flags.draining, id, drains); }
    }

    /** addBackend: a type the storage does not accept is refused. */
    method AddBackend(id: Id, idType: IdType, b: Backend) returns (drains: bool)
      requires Valid()
      modifies this, flags
      ensures Valid() && old(flags.draining) <= flags.draining
      ensures State() == if idType in idTypes then Add(old(State()), id, b, drains, maintain) else old(State())
      ensures drains ==> b in flags.draining
    {
      ghost var was := State();
      drains := false;
      if idType !in idTypes {
        return;
      }
      AddKeepsMap(was, id, b, drains, maintain);
      if maintain { AddKeepsInv(was, flags.draining, id, b, false); }
      if id in backends {
        if b in backends[id] {
          return;
        }
        backends := backends[id := backends[id] + [b]];
        return;
      }
      backends := backends[id := [b]];
      if maintain {
        drains := flags.IsDraining(b);
        if drains {
          draining := draining + [id];
        } else {
          nonDraining := nonDraining + [id];
        }
        AddKeepsInv(was, flags.draining, id, b, drains);
      }
    }

    /** markIdentifierBackendDraining. With the index maintained, an identifier whose
        primary was flagged before is out of the non-draining list afterwards. */
    method MarkIdentifierBackendDraining(id: Id, idType: IdType, b: Backend) returns (drains: bool)
      requires Valid()
      modifies this`nonDraining, this`draining, flags
      ensures Valid() && old(flags.draining) <= flags.draining
      ensures State() == if idType in idTypes then Mark(old(State()), id, b, drains) else old(State())
      ensures maintain && idType in idTypes && id in backends && backends[id][0] == b && b in old(flags.draining) ==>
                id in draining && id !in nonDraining
    {
      drains := false;
      if idType !in idTypes {
        return;
      }
      if id !in backends || |backends[id]| == 0 || backends[id][0] != b {
        return;
      }
      drains := RefreshIdentifierState(id);
    }

    /** removeBackend. */
    method RemoveBackend(id: Id, idType: IdType, b: Backend) returns (drains: bool)
      requires Valid()
      modifies this, flags
      ensures Valid() && old(flags.draining) <= flags.draining
      ensures State() == if idType in idTypes then Remove(old(State()), id, b, drains, maintain) else old(State())
      ensures drains ==> PrimaryDrains(State(), flags.draining, id)
    {
      drains := false;
      if idType !in idTypes {
        return;
      }
      if id !in backends {
        return;
      }
      ghost var was := State();
      RemoveEntryKeepsMap(was, id, b);
      var list := backends[id];
      var slice := new Backend[|list|](i requires 0 <= i < |list| => list[i]);
      assert slice[..] == list;
      var n := RemoveWhileRanging(slice, b);
      if n == 0 {
        backends := backends - {id};
      } else {
        backends := backends[id := slice[..n]];
      }
      assert State() == RemoveEntry(was, id, b);
      if maintain {
        drains := RefreshIdentifierState(id);
      }
    }

    /** rand.Intn. */
    method Intn(n: nat) returns (i: nat)
      requires n > 0
      ensures i < n
    {
      i :| i < n;
    }

    /** What dialCost and RecvChannelOccupancy say about a backend at this moment. */
    method Sampled(b: Backend) returns (c: Candidate)
      ensures c.cost >= FLOOR
    {
      var avg: Option<Average> := *;
      var now: int, inFlight: int, waiting: nat, capacity: nat := *, *, *, *;
      CostIsAtLeastTheFloor(avg, now, inFlight);
      c := Candidate(Cost(avg, now, inFlight), waiting, capacity);
    }

    /** preferredBackend: the chosen one costs less than twice the other, and is the less
        occupied one unless the other costs at least twice as much. */
    method PreferredBackend(first: Backend, second: Backend) returns (chosen: Backend, c: Candidate, other: Candidate)
      ensures chosen == first || chosen == second
      ensures c.cost < 2 * other.cost
      ensures other.cost < 2 * c.cost ==> Occupancy(c) <= Occupancy(other)
    {
      var c1 := Sampled(first);
      var c2 := Sampled(second);
      var coin: bool := *;
      ChosenCostsLessThanTwice(c1, c2, coin);
      if TakesFirst(c1, c2, coin) {
        return first, c1, c2;
      }
      return second, c2, c1;
    }

    ghost predicate IsPrimary(b: Backend)
      reads this
    {
      exists id :: id in backends && backends[id] != [] && backends[id][0] == b
    }

    /** A round of GetRandomBackend: two distinct candidates are drawn, or the only one. A
        candidate found to be draining is taken off the non-draining list instead. */
    method Round() returns (r: Option<Backend>)
      requires Valid() && maintain && nonDraining != []
      modifies this`nonDraining, this`draining, flags
      ensures Valid() && old(flags.draining) <= flags.draining
      ensures r.None? ==> |nonDraining| < |old(nonDraining)|
      ensures r.Some? ==> IsPrimary(r.value) && r.value !in old(flags.draining)
    {
      var firstIndex := Intn(|nonDraining|);
      var firstId := nonDraining[firstIndex];
      var first := backends[firstId][0];
      var firstDrains := flags.IsDraining(first);
      if firstDrains {
        Relist(firstId);
        return None;
      }
      if |nonDraining| == 1 {
        return Some(first);
      }
      var draw := Intn(|nonDraining| - 1);
      var secondIndex := SecondIndex(firstIndex, draw);
      assert secondIndex != firstIndex;
      var secondId := nonDraining[secondIndex];
      assert secondId != firstId;
      var second := backends[secondId][0];
      var secondDrains := flags.IsDraining(second);
      if secondDrains {
        Relist(secondId);
        return None;
      }
      var chosen, c, other := PreferredBackend(first, second);
      return Some(chosen);
    }

    /** The repair of an entry whose primary was found to be draining. */
    method Relist(id: Id)
      requires Valid() && maintain && id in nonDraining && PrimaryDrains(State(), flags.draining, id)
      modifies this`nonDraining, this`draining, flags
      ensures Valid() && old(flags.draining) <= flags.draining
      ensures |nonDraining| < |old(nonDraining)|
    {
      RefreshRepairs(State(), flags.draining, id, true);
      var _ := RefreshIdentifierState(id);
    }

    /** GetRandomBackend. A retry takes an identifier off the non-draining list, so the
        loop ends. With the index maintained, a backend is found if and only if one is
        registered; it is a primary backend; and one that was draining before the call
        is returned only if every primary is draining by the end. */
    method GetRandomBackend() returns (r: Option<Backend>)
      requires Valid() && (maintain || (nonDraining == [] && draining == []))
      modifies this`nonDraining, this`draining, flags
      ensures Valid() && old(flags.draining) <= flags.draining
      ensures r.None? <==> backends == map[] || !maintain
      ensures r.Some? ==> IsPrimary(r.value)
      ensures r.Some? && r.value in old(flags.draining) ==>
                forall id | id in backends :: PrimaryDrains(State(), flags.draining, id)
    {
      if |backends| == 0 {
        return None;
      }
      while |nonDraining| > 0
        invariant Valid() && old(flags.draining) <= flags.draining
        invariant maintain || (nonDraining == [] && draining == [])
        decreases |nonDraining|
      {
        r := Round();
        if r.Some? {
          return;
        }
      }
      if |draining| > 0 {
        var i := Intn(|draining|);
        return Some(backends[draining[i]][0]);
      }
      return None;
    }
  }
}
