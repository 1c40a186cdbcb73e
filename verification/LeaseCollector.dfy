/** The garbage collector of leases: it lists the leases, checks each against the
    clock and deletes the expired ones on the condition that their version is still
    the one it saw. Others renew, create and delete leases meanwhile. */
module LeaseCollector {
  import opened Options
  import opened Runs

  type Name = string

  /** Times and the duration in seconds; all three may be missing. */
  datatype Lease = Lease(renewed: Option<int>, acquired: Option<int>, duration: Option<int>)

  /** A lease as stored; every write gives it a new version. */
  datatype Entry = Entry(lease: Lease, version: nat)

  /** IsLeaseValid: it follows the pointer to the duration without looking, unless there
      is no time to add it to. */
  datatype Verdict = Current | Expired | Crash

  function Judge(lease: Lease, now: int): Verdict {
    if lease.renewed.None? && lease.acquired.None? then Expired
    else if lease.duration.None? then Crash
    else
      var last := if lease.renewed.Some? then lease.renewed.value else lease.acquired.value;
      if last + lease.duration.value > now then Current else Expired
  }

  /** A lease that is not renewed stays expired. */
  lemma ExpiryLasts(lease: Lease, now: int, later: int)
    requires Judge(lease, now).Expired? && now <= later
    ensures Judge(lease, later).Expired?
  {}

  /** An item of the list the collector works on. */
  datatype Item = Item(name: Name, entry: Entry)

  datatype Collector = Idle | Checking(items: seq<Item>) | Deleting(item: Item, items: seq<Item>) | Crashed

  /** A deletion by the collector: the lease it removed, and when. */
  datatype Deletion = Deletion(name: Name, lease: Lease, at: int)

  datatype State = State(store: map<Name, Entry>, next: nat, now: int, collector: Collector, culled: seq<Deletion>)

  datatype Action =
    | Tick(seconds: nat)
    | Write(name: Name, lease: Lease) | DeleteByOther(name: Name)
    | List(names: seq<Name>) | Check | Delete(reaches: bool)

  function Initial(store: map<Name, Entry>, next: nat, now: int): State { State(store, next, now, Idle, []) }

  /** The listed leases as they are stored. */
  function Items(store: map<Name, Entry>, names: seq<Name>): seq<Item> {
    if names == [] then []
    else (if names[0] in store then [Item(names[0], store[names[0]])] else []) + Items(store, names[1..])
  }

  function DeleteStep(s: State, item: Item, items: seq<Item>, reaches: bool): State {
    var t := s.(collector := Checking(items));
    if reaches && item.name in s.store && s.store[item.name].version == item.entry.version
    then t.(store := s.store - {item.name}, culled := s.culled + [Deletion(item.name, s.store[item.name].lease, s.now)])
    else t
  }

  function Step(s: State, a: Action): State {
    match a
    case Tick(seconds) => s.(now := s.now + seconds)
    case Write(name, lease) => s.(store := s.store[name := Entry(lease, s.next)], next := s.next + 1)
    case DeleteByOther(name) => s.(store := s.store - {name})
    case List(names) => if s.collector.Idle? then s.(collector := Checking(Items(s.store, names))) else s
    case Check =>
      if !s.collector.Checking? then s
      else if s.collector.items == [] then s.(collector := Idle)
      else
        var item, rest := s.collector.items[0], s.collector.items[1..];
        match Judge(item.entry.lease, s.now) {
          case Current => s.(collector := Checking(rest))
          case Expired => s.(collector := Deleting(item, rest))
          case Crash => s.(collector := Crashed)
        }
    case Delete(reaches) =>
      if s.collector.Deleting? then DeleteStep(s, s.collector.item, s.collector.items, reaches) else s
  }

  // ----- What every interleaving keeps -----

  /** A version says what a lease holds, now and later. */
  ghost predicate ItemOk(s: State, item: Item) {
    && item.entry.version < s.next
    && (item.name in s.store && s.store[item.name].version == item.entry.version ==> s.store[item.name] == item.entry)
  }

  ghost predicate StoreInv(s: State) { forall name | name in s.store :: s.store[name].version < s.next }

  ghost predicate CollectorInv(s: State) {
    match s.collector
    case Idle => true
    case Crashed => true
    case Checking(items) => forall i | 0 <= i < |items| :: ItemOk(s, items[i])
    case Deleting(item, items) =>
      ItemOk(s, item) && Judge(item.entry.lease, s.now).Expired? && forall i | 0 <= i < |items| :: ItemOk(s, items[i])
  }

  ghost predicate Inv(s: State) {
    && StoreInv(s) && CollectorInv(s)
    && forall i | 0 <= i < |s.culled| :: Judge(s.culled[i].lease, s.culled[i].at).Expired?
  }

  lemma {:induction false} ItemsAreStored(store: map<Name, Entry>, names: seq<Name>)
    ensures forall i | 0 <= i < |Items(store, names)| ::
              var item := Items(store, names)[i]; item.name in store && store[item.name] == item.entry
  {
    if names != [] { ItemsAreStored(store, names[1..]); }
  }

  lemma StepKeepsInv(s: State, a: Action)
    requires Inv(s)
    ensures Inv(Step(s, a))
  {
    match a
    case List(names) => ItemsAreStored(s.store, names);
    case Tick(seconds) =>
      if s.collector.Deleting? { ExpiryLasts(s.collector.item.entry.lease, s.now, s.now + seconds); }
    case _ =>
  }

  /** In every interleaving with renewals, and whatever the store held at first, every
      lease the collector deleted was expired at the moment of deletion. */
  lemma OnlyExpiredLeasesAreCulled(store: map<Name, Entry>, next: nat, now: int, actions: seq<Action>)
    requires forall name | name in store :: store[name].version < next
    ensures var s := Run(Step, Initial(store, next, now), actions);
            forall i | 0 <= i < |s.culled| :: Judge(s.culled[i].lease, s.culled[i].at).Expired?
  {
    forall t, a | Inv(t) ensures Inv(Step(t, a)) { StepKeepsInv(t, a); }
    Invariance(Step, Inv, Initial(store, next, now), actions);
  }

  // ----- A collection that nobody disturbs -----

  /** What is left when the expired ones of these leases are deleted. */
  function Kept(store: map<Name, Entry>, names: seq<Name>, now: int): map<Name, Entry> {
    map name | name in store && (name in names ==> !Judge(store[name].lease, now).Expired?) :: store[name]
  }

  /** gc, when nothing else writes: of the leases listed, exactly the expired ones go, up
      to the first that has a time and no duration, on which the code crashes. */
  method Gc(store: map<Name, Entry>, names: seq<Name>, now: int)
    returns (left: map<Name, Entry>, culled: nat, reached: nat)
    ensures reached <= |names| && left == Kept(store, names[..reached], now)
    ensures forall i | 0 <= i < reached :: names[i] in store ==> !Judge(store[names[i]].lease, now).Crash?
    ensures reached < |names| ==> names[reached] in store && Judge(store[names[reached]].lease, now).Crash?
    ensures culled == |store| - |left|
  {
    left, culled, reached := store, 0, 0;
    while reached < |names|
      invariant reached <= |names| && left == Kept(store, names[..reached], now)
      invariant forall i | 0 <= i < reached :: names[i] in store ==> !Judge(store[names[i]].lease, now).Crash?
      invariant culled == |store| - |left|
    {
      var name := names[reached];
      assert names[..reached + 1] == names[..reached] + [name];
      if name in store {
        match Judge(store[name].lease, now) {
          case Crash => return;
          case Current =>
          case Expired =>
            if name in left && left[name].version == store[name].version {
              left := left - {name};
              culled := culled + 1;
            }
        }
      }
      reached := reached + 1;
    }
  }

  // ----- The missing duration -----

  /** A lease that the collector can judge at any time. */
  predicate Sound(lease: Lease) { lease.duration.Some? || (lease.renewed.None? && lease.acquired.None?) }

  ghost predicate SoundWrites(actions: seq<Action>) { forall a | a in actions :: a.Write? ==> Sound(a.lease) }

  ghost predicate SoundItems(items: seq<Item>) { forall i | 0 <= i < |items| :: Sound(items[i].entry.lease) }

  ghost predicate AllSound(s: State) {
    && (forall name | name in s.store :: Sound(s.store[name].lease))
    && (match s.collector
        case Idle => true
        case Crashed => false
        case Checking(items) => SoundItems(items)
        case Deleting(_, items) => SoundItems(items))
  }

  lemma {:induction false} SoundRun(s: State, actions: seq<Action>)
    requires AllSound(s) && SoundWrites(actions)
    ensures AllSound(Run(Step, s, actions))
    decreases |actions|
  {
    if actions != [] {
      assert actions[0] in actions;
      if actions[0].List? { ItemsAreStored(s.store, actions[0].names); }
      SoundRun(Step(s, actions[0]), actions[1..]);
    }
  }

  lemma CheckOne(s: State, name: Name)
    requires s.collector.Idle? && name in s.store && !Sound(s.store[name].lease)
    ensures Run(Step, s, [List([name]), Check]).collector.Crashed?
  {
    var actions := [List([name]), Check];
    var t := Step(s, actions[0]);
    assert Items(s.store, [name]) == [Item(name, s.store[name])];
    assert actions[1..] == [Check] && [Check][1..] == [];
    assert Run(Step, t, [Check]) == Run(Step, Step(t, Check), []);
  }

  /** If nobody writes a lease that has a time and no duration, the collector can crash
      if and only if there is one at the start. */
  lemma CrashNeedsMissingDuration(store: map<Name, Entry>, next: nat, now: int)
    ensures (exists actions :: SoundWrites(actions) && Run(Step, Initial(store, next, now), actions).collector.Crashed?)
            <==> (exists name :: name in store && !Sound(store[name].lease))
  {
    var s := Initial(store, next, now);
    if name :| name in store && !Sound(store[name].lease) {
      CheckOne(s, name);
      assert SoundWrites([List([name]), Check]);
    } else {
      forall actions | SoundWrites(actions) ensures !Run(Step, s, actions).collector.Crashed? { SoundRun(s, actions); }
    }
  }

  /** Once it has crashed, the collector deletes no lease any more, whatever expires. */
  lemma {:induction false} CrashEndsCollection(s: State, actions: seq<Action>)
    requires s.collector.Crashed?
    ensures var t := Run(Step, s, actions); t.collector.Crashed? && t.culled == s.culled
    decreases |actions|
  {
    if actions != [] { CrashEndsCollection(Step(s, actions[0]), actions[1..]); }
  }
}
