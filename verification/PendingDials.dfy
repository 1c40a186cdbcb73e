/** PendingDialManager: the dials waiting for an answer, and for every backend the
    number of dials in flight, which the choice of a backend reads without the
    manager's lock. */
module PendingDials {
  import opened Options
  import opened Runs
  import opened Ranging
  import DialCost

  type DialId = int
  type Backend = nat
  type StreamId = string

  /** A pending dial; without a backend, or without a frontend, where those are nil. */
  datatype Entry = Entry(backend: Option<Backend>, stream: Option<StreamId>)

  type Counters = map<Backend, int>

  function Counter(c: Counters, b: Backend): int { if b in c then c[b] else 0 }

  /** dialsInFlight.Add, on the backend if there is one. */
  function Bump(c: Counters, b: Option<Backend>, delta: int): Counters {
    if b.None? then c else c[b.value := Counter(c, b.value) + delta]
  }

  function Over(pending: map<DialId, Entry>, b: Backend): set<DialId> {
    set d | d in pending && pending[d].backend == Some(b)
  }

  /** The number of pending dials over a backend. */
  function InFlight(pending: map<DialId, Entry>, b: Backend): nat { |Over(pending, b)| }

  lemma InsertCounts(pending: map<DialId, Entry>, d: DialId, e: Entry, b: Backend)
    requires d !in pending
    ensures InFlight(pending[d := e], b) == InFlight(pending, b) + Once(e.backend == Some(b))
  {
    assert Over(pending[d := e], b) == Over(pending, b) + if e.backend == Some(b) then {d} else {};
  }

  lemma RemoveCounts(pending: map<DialId, Entry>, d: DialId, b: Backend)
    requires d in pending
    ensures InFlight(pending, b) == InFlight(pending - {d}, b) + Once(pending[d].backend == Some(b))
  {
    assert (pending - {d})[d := pending[d]] == pending;
    InsertCounts(pending - {d}, d, pending[d], b);
  }

  /** Putting in a dial under any ID: the one it replaces is no longer counted. */
  lemma ReplaceCounts(pending: map<DialId, Entry>, d: DialId, e: Entry, b: Backend)
    ensures InFlight(pending[d := e], b)
            == InFlight(pending, b) - Once(BackendOf(pending, d) == Some(b)) + Once(e.backend == Some(b))
  {
    var without := pending - {d};
    InsertCounts(without, d, e, b);
    assert without[d := e] == pending[d := e];
    if d in pending { RemoveCounts(pending, d, b); } else { assert without == pending; }
  }

  // ----- Every moment of every run -----

  /** What the holder of the lock is doing: replacing a dial of the same ID that it has
      discounted, counting one it has put in, discounting one it has taken out. */
  datatype Busy = Idle | Replacing(d: DialId, e: Entry) | Counting(e: Entry) | Discounting(e: Entry)

  datatype State = State(pending: map<DialId, Entry>, counters: Counters, busy: Busy)

  /** StartAdd takes the lock; Put and Finish go on. StartRemove is Remove, or one
      round of removeForBackend or removeForStream. */
  datatype Action = StartAdd(d: DialId, e: Entry) | Put | StartRemove(d: DialId) | Finish

  function BackendOf(pending: map<DialId, Entry>, d: DialId): Option<Backend> {
    if d in pending then pending[d].backend else None
  }

  function Step(s: State, a: Action): State {
    match a
    case StartAdd(d, e) =>
      if s.busy.Idle? then s.(busy := Replacing(d, e), counters := Bump(s.counters, BackendOf(s.pending, d), -1)) else s
    case Put =>
      if s.busy.Replacing? then s.(pending := s.pending[s.busy.d := s.busy.e], busy := Counting(s.busy.e)) else s
    case StartRemove(d) =>
      if s.busy.Idle? && d in s.pending then s.(pending := s.pending - {d}, busy := Discounting(s.pending[d])) else s
    case Finish =>
      match s.busy
      case Counting(e) => s.(busy := Idle, counters := Bump(s.counters, e.backend, 1))
      case Discounting(e) => s.(busy := Idle, counters := Bump(s.counters, e.backend, -1))
      case _ => s
  }

  /** By how much the counter of a backend is behind. */
  function Behind(s: State, b: Backend): int {
    match s.busy
    case Idle => 0
    case Replacing(d, _) => Once(BackendOf(s.pending, d) == Some(b))
    case Counting(e) => Once(e.backend == Some(b))
    case Discounting(e) => -(Once(e.backend == Some(b)) as int)
  }

  ghost predicate CounterOk(s: State, b: Backend) {
    && Counter(s.counters, b) == InFlight(s.pending, b) - Behind(s, b)
    && Behind(s, b) <= InFlight(s.pending, b)
  }

  ghost predicate Inv(s: State) { forall b :: CounterOk(s, b) }

  lemma StepKeeps(s: State, a: Action, b: Backend)
    requires CounterOk(s, b)
    ensures CounterOk(Step(s, a), b)
  {
    match a
    case StartAdd(d, e) => if d in s.pending { RemoveCounts(s.pending, d, b); }
    case Put => if s.busy.Replacing? { ReplaceCounts(s.pending, s.busy.d, s.busy.e, b); }
    case StartRemove(d) => if d in s.pending { RemoveCounts(s.pending, d, b); }
    case Finish =>
  }

  /** At every moment of every run, also while a dial is added under an ID in use, no
      counter is negative, and between operations each is the number of pending dials
      over its backend. */
  lemma CountersCountPending(actions: seq<Action>, b: Backend)
    ensures var s := Run(Step, State(map[], map[], Idle), actions);
            && Counter(s.counters, b) >= 0
            && (s.busy.Idle? ==> Counter(s.counters, b) == InFlight(s.pending, b))
  {
    var init := State(map[], map[], Idle);
    forall b: Backend | true ensures CounterOk(init, b) { assert Over(map[], b) == {}; }
    forall t, a | Inv(t) ensures Inv(Step(t, a)) {
      forall b: Backend | true ensures CounterOk(Step(t, a), b) { StepKeeps(t, a, b); }
    }
    Invariance(Step, Inv, init, actions);
    assert CounterOk(Run(Step, init, actions), b);
  }

  /** So dialCost never meets a negative number of dials, and is the latency times one
      more than that number. */
  lemma CostNeedsNoClamp(actions: seq<Action>, b: Backend, avg: Option<DialCost.Average>, now: int)
    ensures var inFlight := Counter(Run(Step, State(map[], map[], Idle), actions).counters, b);
            && DialCost.Cost(avg, now, inFlight) == DialCost.Recent(avg, now) * (inFlight + 1)
            && DialCost.Cost(avg, now, inFlight) >= DialCost.FLOOR
  {
    CountersCountPending(actions, b);
    DialCost.CostIsAtLeastTheFloor(avg, now, Counter(Run(Step, State(map[], map[], Idle), actions).counters, b));
  }

  // ----- The object -----

  class Manager {
    var pending: map<DialId, Entry>
    var counters: Counters

    ghost predicate Valid()
      reads this
    {
      forall b :: Counter(counters, b) == InFlight(pending, b)
    }

    constructor ()
      ensures Valid() && pending == map[]
    {
      pending, counters := map[], map[];
      new;
      forall b: Backend | true ensures InFlight(pending, b) == 0 { assert Over(pending, b) == {}; }
    }

    /** Add: a dial under the same ID is replaced and no longer counted. */
    method Add(d: DialId, e: Entry)
      requires Valid()
      modifies this
      ensures Valid() && pending == old(pending)[d := e]
    {
      forall b: Backend | true
        ensures InFlight(pending[d := e], b)
                == InFlight(pending, b) - Once(BackendOf(pending, d) == Some(b)) + Once(e.backend == Some(b))
      {
        ReplaceCounts(pending, d, e, b);
      }
      if d in pending && pending[d].backend.Some? {
        counters := Bump(counters, pending[d].backend, -1);
      }
      pending := pending[d := e];
      if e.backend.Some? {
        counters := Bump(counters, e.backend, 1);
      }
    }

    /** Remove claims a dial: whoever gets it is the only one. */
    method Remove(d: DialId) returns (r: Option<Entry>)
      requires Valid()
      modifies this
      ensures Valid() && pending == old(pending) - {d}
      ensures r == if d in old(pending) then Some(old(pending)[d]) else None
    {
      if d !in pending {
        return None;
      }
      forall b: Backend | true
        ensures InFlight(pending, b) == InFlight(pending - {d}, b) + Once(pending[d].backend == Some(b))
      {
        RemoveCounts(pending, d, b);
      }
      r := Some(pending[d]);
      pending := pending - {d};
      if r.value.backend.Some? {
        counters := Bump(counters, r.value.backend, -1);
      }
    }

    /** The dials of a set, removed one by one in any order, as ranging over a map does. */
    method RemoveEach(which: set<DialId>) returns (ret: seq<DialId>)
      requires Valid()
      modifies this
      ensures Valid() && pending == old(pending) - which
      ensures NoDup(ret) && forall d :: d in ret <==> d in which && d in old(pending)
    {
      ret := [];
      var todo := which;
      while todo != {}
        invariant Valid() && todo <= which && pending == old(pending) - (which - todo)
        invariant NoDup(ret) && forall d :: d in ret <==> d in which - todo && d in old(pending)
        decreases todo
      {
        var d := Any(todo);
        if d in pending {
          var _ := Remove(d);
          ret := ret + [d];
        }
        todo := todo - {d};
      }
    }

    /** removeForBackend: exactly the dials sent over the backend. */
    method RemoveForBackend(b: Option<Backend>) returns (ret: seq<DialId>)
      requires Valid()
      modifies this
      ensures Valid() && NoDup(ret)
      ensures forall d :: d in ret <==> b.Some? && d in old(pending) && old(pending)[d].backend == b
      ensures pending == map d | d in old(pending) && d !in ret :: old(pending)[d]
    {
      if b.None? {
        return [];
      }
      ret := RemoveEach(set d | d in pending && pending[d].backend == b);
    }

    /** removeForStream: exactly the dials of the frontend's stream. */
    method RemoveForStream(stream: StreamId) returns (ret: seq<DialId>)
      requires Valid()
      modifies this
      ensures Valid() && NoDup(ret)
      ensures forall d :: d in ret <==> stream != "" && d in old(pending) && old(pending)[d].stream == Some(stream)
      ensures pending == map d | d in old(pending) && d !in ret :: old(pending)[d]
    {
      if stream == "" {
        return [];
      }
      ret := RemoveEach(set d | d in pending && pending[d].stream == Some(stream));
    }
  }
}
