/** The reusable tunnel of the konnectivity client: any number of concurrent
    DialContext and Close calls. A dial reserves a child slot, and whichever path it
    takes has to release it; Close waits for all of them. */
module ReusableTunnel {
  import opened Runs
  import opened Ranging

  /** A DialContext call: before the lock, waiting for the stream to be set up, waiting
      for it after the caller's context ended, in the inner dial, after the inner dial
      failed, returned with a connection or with an error. */
  datatype Call = Entering | Racing | GaveUp | Dialing | Failing | Returned(ok: bool)

  /** The goroutine that sets up the stream, and its result. */
  datatype Setup = NotStarted | SettingUp | SetupFailed | SetupDone

  /** The serve loop of the inner tunnel. */
  datatype Inner = NoInner | Serving | Exited

  /** The goroutine that waits for the inner tunnel to be done. */
  datatype Watcher = NoWatcher | Watching | Finished

  /** The connection that the caller got: open, closed by the caller and waiting for the
      close response or CloseTimeout, and done with its tunnel. */
  datatype Conn = Open | AwaitingClose | Released

  datatype Dial = Dial(
    call: Call, setup: Setup, inner: Inner, watcher: Watcher, conn: Conn,
    cancelled: bool,                   // the context of the dial's stream
    reserved: nat, released: nat)      // how often a slot was reserved and released

  /** A Close call: before the lock; for the first one cancelling, waiting for the
      children, closing the connection, closing done; for others waiting for done. */
  datatype Closer = AtLock | Cancelling | WaitChildren | ClosingConn | ClosingDone | WaitDone | CloseReturned

  datatype State = State(
    closing: bool, first: nat,         // set by the Close call `first`
    cancelled: bool,                   // the tunnel's context, the parent of every stream's
    children: int,                     // the wait group
    doneCloses: nat,                   // how often done was closed
    dials: seq<Dial>, closers: seq<Closer>)

  /** What a dial does. A stream is set up, or refused, and ended by the peer; when its
      context is cancelled the set-up fails and the serve loop exits. */
  datatype DialOp =
    | Reserve(tcp: bool)
    | PeerSetsUp(ok: bool) | SetUpCancelled
    | TakeResult | RequestEnds | DrainResult
    | InnerDial(ok: bool) | CancelAndReturn
    | PeerEnds | ServeCancelled | SeeDone
    | CloseConn | StopAwaiting

  datatype Action = StartDial | OnDial(i: nat, op: DialOp) | StartClose | OnClose(j: nat)

  const INITIAL := State(false, 0, false, 0, 0, [], [])

  const NEW_DIAL := Dial(Entering, NotStarted, NoInner, NoWatcher, Open, false, 0, 0)

  function Release(d: Dial): Dial { d.(released := d.released + 1) }

  /** One step of one dial; `cancelled` is the tunnel's context. */
  function DialStep(d: Dial, op: DialOp, closing: bool, cancelled: bool): Dial {
    match op
    case Reserve(tcp) =>
      if !d.call.Entering? then d
      else if !tcp || closing then d.(call := Returned(false))
      else d.(call := Racing, setup := SettingUp, reserved := d.reserved + 1)
    case PeerSetsUp(ok) =>
      if !d.setup.SettingUp? then d
      else if ok then d.(setup := SetupDone, inner := Serving)
      else d.(setup := SetupFailed)
    case SetUpCancelled => if d.setup.SettingUp? && (d.cancelled || cancelled) then d.(setup := SetupFailed) else d
    case TakeResult =>
      if !d.call.Racing? then d
      else if d.setup.SetupFailed? then Release(d.(call := Returned(false), cancelled := true))
      else if d.setup.SetupDone? then d.(call := Dialing, watcher := Watching)
      else d
    case RequestEnds => if d.call.Racing? then d.(call := GaveUp, cancelled := true) else d
    case DrainResult =>
      if !d.call.GaveUp? then d
      else if d.setup.SetupDone? then d.(call := Returned(false), watcher := Watching)
      else if d.setup.SetupFailed? then Release(d.(call := Returned(false)))
      else d
    case InnerDial(ok) => if d.call.Dialing? then d.(call := if ok then Returned(true) else Failing) else d
    case CancelAndReturn => if d.call.Failing? then d.(call := Returned(false), cancelled := true) else d
    case PeerEnds => if d.inner.Serving? then d.(inner := Exited) else d
    case ServeCancelled => if d.inner.Serving? && (d.cancelled || cancelled) then d.(inner := Exited) else d
    case SeeDone => if d.watcher.Watching? && d.inner.Exited? then Release(d.(watcher := Finished)) else d
    case CloseConn =>
      if d.call != Returned(true) || !d.conn.Open? then d
      else if d.inner.Exited? then d.(conn := Released, cancelled := true)
      else d.(conn := AwaitingClose)
    case StopAwaiting => if d.conn.AwaitingClose? then d.(conn := Released, cancelled := true) else d
  }

  /** The slots a dial holds. */
  function Balance(d: Dial): int { d.reserved - d.released }

  function CloseStep(s: State, j: nat): State
    requires j < |s.closers|
  {
    match s.closers[j]
    case AtLock =>
      if s.closing then s.(closers := s.closers[j := WaitDone])
      else s.(closing := true, first := j, closers := s.closers[j := Cancelling])
    case Cancelling => s.(cancelled := true, closers := s.closers[j := WaitChildren])
    case WaitChildren => if s.children == 0 then s.(closers := s.closers[j := ClosingConn]) else s
    case ClosingConn => s.(closers := s.closers[j := ClosingDone])
    case ClosingDone => s.(closers := s.closers[j := CloseReturned], doneCloses := s.doneCloses + 1)
    case WaitDone => if s.doneCloses > 0 then s.(closers := s.closers[j := CloseReturned]) else s
    case CloseReturned => s
  }

  function OnDialStep(s: State, i: nat, op: DialOp): State
    requires i < |s.dials|
  {
    SetDial(s, i, DialStep(s.dials[i], op, s.closing, s.cancelled))
  }

  /** A dial changes, and the wait group with it. */
  function SetDial(s: State, i: nat, e: Dial): State
    requires i < |s.dials|
  {
    s.(dials := s.dials[i := e], children := s.children + Balance(e) - Balance(s.dials[i]))
  }

  function Step(s: State, a: Action): State {
    match a
    case StartDial => s.(dials := s.dials + [NEW_DIAL])
    case OnDial(i, op) => if i < |s.dials| then OnDialStep(s, i, op) else s
    case StartClose => s.(closers := s.closers + [AtLock])
    case OnClose(j) => if j < |s.closers| then CloseStep(s, j) else s
  }

  // ----- One dial -----

  predicate Held(d: Dial) { d.reserved > d.released }

  /** A dial holds one slot or none. */
  predicate Counts(d: Dial) { d.released <= d.reserved <= 1 }

  ghost predicate DialInv(d: Dial) {
    && Counts(d)
    && (d.inner.NoInner? <==> !d.setup.SetupDone?)
    && (d.watcher.Finished? ==> d.inner.Exited?)
    && (d.reserved == 0 <==> d.setup.NotStarted?)
    && (d.call.Entering? ==> d.reserved == 0)
    && (d.call.Racing? || d.call.GaveUp? || d.call.Dialing? || d.call.Failing? || d.call == Returned(true) ==>
          d.reserved == 1)
    && (d.call.Entering? || d.call.Racing? || d.call.GaveUp? || !d.setup.SetupDone? ==> d.watcher.NoWatcher?)
    && (d.call.Dialing? || d.call.Failing? ==> d.setup.SetupDone?)
    && (d.setup.SetupDone? && (d.call.Dialing? || d.call.Failing? || d.call.Returned?) ==> Watched(d))
    && (d.call.Racing? || d.call.GaveUp? ==> d.released == 0)
    && (d.call.Returned? && d.reserved == 1 && !d.setup.SetupDone? ==> d.setup.SetupFailed? && d.released == 1)
    && (d.call.GaveUp? || (d.call == Returned(false) && d.reserved == 1) || d.conn.Released? ==> d.cancelled)
    && (!d.conn.Open? ==> d.call == Returned(true))
    && (d.call == Returned(true) && d.cancelled ==> d.conn.Released?)
    && (d.call.Entering? || d.call.Racing? || d.call.Dialing? || d.call.Failing? ==> !d.cancelled)
  }

  /** The watcher owns the slot. */
  ghost predicate Watched(d: Dial) {
    !d.watcher.NoWatcher? && d.released == if d.watcher.Finished? then 1 else 0
  }

  lemma DialStepKeepsInv(d: Dial, op: DialOp, closing: bool, cancelled: bool)
    requires DialInv(d)
    ensures DialInv(DialStep(d, op, closing, cancelled))
  {}

  /** No dial gets a slot once the tunnel is closing. */
  lemma ClosedToNewSlots(d: Dial, op: DialOp, cancelled: bool)
    ensures DialStep(d, op, true, cancelled).reserved == d.reserved
  {}

  // ----- All dials -----

  ghost predicate DialsInv(dials: seq<Dial>) { forall i | 0 <= i < |dials| :: DialInv(dials[i]) }

  /** The dials that hold a slot. */
  function HeldIn(dials: seq<Dial>): set<nat> { set i: nat | i < |dials| && Held(dials[i]) }

  /** One dial changes. */
  lemma HeldUpdate(dials: seq<Dial>, i: nat, e: Dial)
    requires i < |dials| && Counts(dials[i]) && Counts(e)
    ensures |HeldIn(dials[i := e])| == |HeldIn(dials)| + Balance(e) - Balance(dials[i])
  {
    var others := HeldIn(dials) - {i};
    assert HeldIn(dials) == others + if Held(dials[i]) then {i} else {};
    assert HeldIn(dials[i := e]) == others + if Held(e) then {i} else {};
  }

  // ----- The Close calls -----

  predicate Draining(c: Closer) { c.Cancelling? || c.WaitChildren? || c.ClosingConn? || c.ClosingDone? }

  predicate PastWait(c: Closer) { c.ClosingConn? || c.ClosingDone? }

  /** Exactly the first Close drains, and done is closed by it. */
  ghost predicate CloseInv(s: State) {
    && (!s.closing ==> s.doneCloses == 0 && forall j | 0 <= j < |s.closers| :: s.closers[j].AtLock?)
    && (s.closing ==>
          && s.first < |s.closers| && (Draining(s.closers[s.first]) || s.closers[s.first].CloseReturned?)
          && s.doneCloses == (if s.closers[s.first].CloseReturned? then 1 else 0)
          && (s.cancelled || s.closers[s.first].Cancelling?)
          && (forall j | 0 <= j < |s.closers| && j != s.first :: !Draining(s.closers[j]))
          && (forall j | 0 <= j < |s.closers| && s.closers[j].CloseReturned? :: s.doneCloses == 1))
  }

  ghost predicate DrainInv(s: State) {
    && s.children == |HeldIn(s.dials)|
    && (s.closing && s.first < |s.closers| && (PastWait(s.closers[s.first]) || s.doneCloses > 0) ==> s.children == 0)
  }

  ghost predicate Inv(s: State) { DialsInv(s.dials) && CloseInv(s) && DrainInv(s) }

  lemma NothingIsUnreleased(d: Dial, op: DialOp, closing: bool, cancelled: bool)
    ensures DialStep(d, op, closing, cancelled).released >= d.released
  {}

  lemma StillUnheld(d: Dial, e: Dial)
    requires Counts(d) && Counts(e) && !Held(d) && e.reserved == d.reserved && e.released >= d.released
    ensures Balance(e) == Balance(d)
  {}

  /** One dial changes, on a tunnel that is closing only without getting a slot. */
  lemma ChangedDialKeepsDrain(s: State, i: nat, e: Dial)
    requires DrainInv(s) && i < |s.dials| && Counts(s.dials[i]) && Counts(e)
    requires s.closing && s.children == 0 ==> Balance(e) == Balance(s.dials[i])
    ensures DrainInv(SetDial(s, i, e))
  {
    HeldUpdate(s.dials, i, e);
  }

  lemma UpdateKeepsDials(dials: seq<Dial>, i: nat, e: Dial)
    requires DialsInv(dials) && i < |dials| && DialInv(e)
    ensures DialsInv(dials[i := e])
  {
    var next := dials[i := e];
    forall j | 0 <= j < |next| ensures DialInv(next[j]) {
      assert j != i ==> next[j] == dials[j];
    }
  }

  lemma ChangedDialKeepsInv(s: State, i: nat, e: Dial)
    requires Inv(s) && i < |s.dials| && DialInv(e)
    requires s.closing && s.children == 0 ==> Balance(e) == Balance(s.dials[i])
    ensures Inv(SetDial(s, i, e))
  {
    assert DialInv(s.dials[i]);
    ChangedDialKeepsDrain(s, i, e);
    UpdateKeepsDials(s.dials, i, e);
  }

  lemma NoneHeld(dials: seq<Dial>, i: nat)
    requires |HeldIn(dials)| == 0 && i < |dials|
    ensures !Held(dials[i])
  {
    assert i !in HeldIn(dials);
  }

  /** On a tunnel that is closing a dial without a slot gets none. */
  lemma NoSlotOnceDrained(s: State, i: nat, op: DialOp)
    requires DialsInv(s.dials) && DrainInv(s) && i < |s.dials| && s.closing && s.children == 0
    ensures Balance(DialStep(s.dials[i], op, true, s.cancelled)) == Balance(s.dials[i])
  {
    var d := s.dials[i];
    NoneHeld(s.dials, i);
    assert DialInv(d);
    DialStepKeepsInv(d, op, true, s.cancelled);
    ClosedToNewSlots(d, op, s.cancelled);
    NothingIsUnreleased(d, op, true, s.cancelled);
    StillUnheld(d, DialStep(d, op, true, s.cancelled));
  }

  lemma DialMoves(s: State, i: nat, op: DialOp)
    requires DialsInv(s.dials) && DrainInv(s) && i < |s.dials|
    ensures var e := DialStep(s.dials[i], op, s.closing, s.cancelled);
            DialInv(e) && (s.closing && s.children == 0 ==> Balance(e) == Balance(s.dials[i]))
  {
    assert DialInv(s.dials[i]);
    DialStepKeepsInv(s.dials[i], op, s.closing, s.cancelled);
    if s.closing && s.children == 0 { NoSlotOnceDrained(s, i, op); }
  }

  lemma OnDialKeepsInv(s: State, i: nat, op: DialOp)
    requires Inv(s) && i < |s.dials|
    ensures Inv(SetDial(s, i, DialStep(s.dials[i], op, s.closing, s.cancelled)))
  {
    DialMoves(s, i, op);
    ChangedDialKeepsInv(s, i, DialStep(s.dials[i], op, s.closing, s.cancelled));
  }

  lemma NewDialOk()
    ensures DialInv(NEW_DIAL)
  {}

  lemma AppendKeepsDials(dials: seq<Dial>, d: Dial)
    requires DialsInv(dials) && DialInv(d)
    ensures DialsInv(dials + [d])
  {
    var next := dials + [d];
    forall i | 0 <= i < |next| ensures DialInv(next[i]) {
      assert i < |dials| ==> next[i] == dials[i];
    }
  }

  lemma StartDialKeepsInv(s: State)
    requires Inv(s)
    ensures Inv(s.(dials := s.dials + [NEW_DIAL]))
  {
    NewDialOk();
    AppendKeepsDials(s.dials, NEW_DIAL);
    assert HeldIn(s.dials + [NEW_DIAL]) == HeldIn(s.dials);
  }

  lemma CloseKeepsClose(s: State, j: nat)
    requires CloseInv(s) && DrainInv(s) && j < |s.closers|
    ensures CloseInv(CloseStep(s, j)) && DrainInv(CloseStep(s, j)) && CloseStep(s, j).dials == s.dials
  {}

  lemma CloseKeepsInv(s: State, j: nat)
    requires Inv(s) && j < |s.closers|
    ensures Inv(CloseStep(s, j))
  {
    CloseKeepsClose(s, j);
  }

  lemma StartCloseKeepsClose(s: State)
    requires CloseInv(s) && DrainInv(s)
    ensures CloseInv(s.(closers := s.closers + [AtLock])) && DrainInv(s.(closers := s.closers + [AtLock]))
  {}

  lemma StartCloseKeepsInv(s: State)
    requires Inv(s)
    ensures Inv(s.(closers := s.closers + [AtLock]))
  {
    StartCloseKeepsClose(s);
  }

  lemma StepKeepsInv(s: State, a: Action)
    requires Inv(s)
    ensures Inv(Step(s, a))
  {
    var t := Step(s, a);
    if t != s {
      match a
      case StartDial => StartDialKeepsInv(s);
      case OnDial(i, op) =>
        assert t == SetDial(s, i, DialStep(s.dials[i], op, s.closing, s.cancelled));
        OnDialKeepsInv(s, i, op);
      case StartClose => StartCloseKeepsInv(s);
      case OnClose(j) =>
        assert t == CloseStep(s, j);
        CloseKeepsInv(s, j);
    }
  }

  lemma Always(actions: seq<Action>)
    ensures Inv(Run(Step, INITIAL, actions))
  {
    forall t, a | Inv(t) ensures Inv(Step(t, a)) { StepKeepsInv(t, a); }
    Invariance(Step, Inv, INITIAL, actions);
  }

  // ----- The theorems -----

  /** In every run the wait group is the number of slots held, and a dial never
      releases more than it reserved. Once a dial that reserved a slot has returned and
      no goroutine watches its inner tunnel, the slot was released exactly once. */
  lemma SlotsAreReleasedOnce(actions: seq<Action>)
    ensures var s := Run(Step, INITIAL, actions);
            && s.children == |HeldIn(s.dials)|
            && forall i | 0 <= i < |s.dials| ::
                 && s.dials[i].released <= s.dials[i].reserved <= 1
                 && (s.dials[i].call.Returned? && !s.dials[i].watcher.Watching? ==>
                       s.dials[i].released == s.dials[i].reserved)
  {
    Always(actions);
    var s := Run(Step, INITIAL, actions);
    forall i | 0 <= i < |s.dials|
      ensures Counts(s.dials[i])
      ensures s.dials[i].call.Returned? && !s.dials[i].watcher.Watching? ==> s.dials[i].released == s.dials[i].reserved
    {
      assert DialInv(s.dials[i]);
      SettledIsReleased(s.dials[i]);
    }
  }

  lemma SettledIsReleased(d: Dial)
    requires DialInv(d)
    ensures d.call.Returned? && !d.watcher.Watching? ==> d.released == d.reserved
  {}

  /** In every run done is closed at most once, only when no slot is held, and before
      any Close returns. */
  lemma DoneOnlyWhenDrained(actions: seq<Action>)
    ensures var s := Run(Step, INITIAL, actions);
            && s.doneCloses <= 1
            && (s.doneCloses == 1 ==> s.children == 0 && forall i | 0 <= i < |s.dials| :: !Held(s.dials[i]))
            && (forall j | 0 <= j < |s.closers| && s.closers[j].CloseReturned? :: s.doneCloses == 1)
  {
    Always(actions);
    var s := Run(Step, INITIAL, actions);
    if s.doneCloses == 1 {
      forall i | 0 <= i < |s.dials| ensures !Held(s.dials[i]) { NoneHeld(s.dials, i); }
    }
  }

  /** What a tunnel that is closing keeps: no dial that had no slot gets one. */
  ghost predicate NoNewSlots(s: State, t: State) {
    && t.closing && |s.dials| <= |t.dials|
    && (forall i | 0 <= i < |s.dials| :: t.dials[i].reserved == s.dials[i].reserved)
    && (forall i | |s.dials| <= i < |t.dials| :: t.dials[i].reserved == 0)
  }

  lemma StepNoNewSlots(s: State, t: State, a: Action)
    requires NoNewSlots(s, t)
    ensures NoNewSlots(s, Step(t, a))
  {
    if a.OnDial? && a.i < |t.dials| { ClosedToNewSlots(t.dials[a.i], a.op, t.cancelled); }
  }

  /** In every run, after a Close has begun no slot is reserved any more. */
  lemma {:induction false} NoSlotAfterClosing(before: seq<Action>, after: seq<Action>)
    requires Run(Step, INITIAL, before).closing
    ensures NoNewSlots(Run(Step, INITIAL, before), Run(Step, INITIAL, before + after))
  {
    var s := Run(Step, INITIAL, before);
    forall t, a | NoNewSlots(s, t) ensures NoNewSlots(s, Step(t, a)) { StepNoNewSlots(s, t, a); }
    Invariance(Step, t => NoNewSlots(s, t), s, after);
    Compose(Step, INITIAL, before, after);
  }

  /** In every run a dial that returned an error after it had reserved a slot has
      cancelled its stream. */
  lemma ErrorMeansCancelled(actions: seq<Action>, i: nat)
    requires i < |Run(Step, INITIAL, actions).dials|
    ensures var d := Run(Step, INITIAL, actions).dials[i];
            d.call == Returned(false) && d.reserved == 1 ==> d.cancelled
  {
    Always(actions);
    assert DialInv(Run(Step, INITIAL, actions).dials[i]);
  }

  // ----- Nothing is stuck -----

  /** An action that only the peer can bring about. */
  predicate ByPeer(a: Action) { a.OnDial? && (a.op.PeerSetsUp? || a.op.PeerEnds?) }

  /** A step of dial `i` that needs neither its peer nor its caller. */
  predicate OwnStep(a: Action, i: nat) { a.OnDial? && a.i == i && !ByPeer(a) && !a.op.CloseConn? && !a.op.RequestEnds? }

  /** How far a dial that holds a slot is from releasing it. */
  function DialWork(d: Dial): nat {
    if !Held(d) then 0
    else 1 + (if d.inner.Serving? then 2 else 0) + (if d.call.Racing? || d.call.GaveUp? then 4 else 0)
         + (if d.setup.SettingUp? then 8 else 0)
  }

  function CloserWork(c: Closer): nat {
    match c
    case AtLock => 5
    case Cancelling => 4
    case WaitChildren => 3
    case ClosingConn => 2
    case ClosingDone => 1
    case WaitDone => 1
    case CloseReturned => 0
  }

  function DialsWork(dials: seq<Dial>): nat {
    if dials == [] then 0 else DialsWork(dials[..|dials| - 1]) + DialWork(dials[|dials| - 1])
  }

  function ClosersWork(closers: seq<Closer>): nat {
    if closers == [] then 0 else ClosersWork(closers[..|closers| - 1]) + CloserWork(closers[|closers| - 1])
  }

  function Work(s: State): nat { DialsWork(s.dials) + ClosersWork(s.closers) }

  lemma {:induction false} DialsWorkUpdate(dials: seq<Dial>, i: nat, e: Dial)
    requires i < |dials|
    ensures DialsWork(dials[i := e]) == DialsWork(dials) + DialWork(e) - DialWork(dials[i])
  {
    var n := |dials| - 1;
    if i == n {
      assert dials[i := e][..n] == dials[..n];
    } else {
      assert dials[i := e][..n] == dials[..n][i := e];
      DialsWorkUpdate(dials[..n], i, e);
    }
  }

  lemma {:induction false} ClosersWorkUpdate(closers: seq<Closer>, j: nat, c: Closer)
    requires j < |closers|
    ensures ClosersWork(closers[j := c]) == ClosersWork(closers) + CloserWork(c) - CloserWork(closers[j])
  {
    var n := |closers| - 1;
    if j == n {
      assert closers[j := c][..n] == closers[..n];
    } else {
      assert closers[j := c][..n] == closers[..n][j := c];
      ClosersWorkUpdate(closers[..n], j, c);
    }
  }

  /** A dial that holds a slot and is cancelled can go on towards releasing it. */
  lemma HeldDialMoves(d: Dial, closing: bool, cancelled: bool) returns (op: DialOp)
    requires DialInv(d) && Held(d) && (d.cancelled || cancelled)
    ensures DialWork(DialStep(d, op, closing, cancelled)) < DialWork(d) && OwnStep(OnDial(0, op), 0)
    ensures var e := DialStep(d, op, closing, cancelled); d.cancelled ==> e.cancelled
  {
    if d.setup.SettingUp? { op := SetUpCancelled; }
    else if d.call.Racing? { op := TakeResult; }
    else if d.call.GaveUp? { op := DrainResult; }
    else if d.inner.Serving? { op := ServeCancelled; }
    else { op := SeeDone; }
  }

  /** A Close call that can take a step brings the work down. */
  lemma CloserMoves(s: State, j: nat)
    requires j < |s.closers| && CloseStep(s, j).closers != s.closers
    ensures Work(CloseStep(s, j)) < Work(s)
  {
    var t := CloseStep(s, j);
    var c := t.closers[j];
    assert t.closers == s.closers[j := c] && t.dials == s.dials && CloserWork(c) < CloserWork(s.closers[j]);
    ClosersWorkUpdate(s.closers, j, c);
  }

  /** Some dial that holds a slot moves, on a tunnel that is cancelled. */
  lemma SomeDialMoves(s: State) returns (a: Action)
    requires DialsInv(s.dials) && s.children == |HeldIn(s.dials)| && s.children != 0 && s.cancelled
    ensures Work(Step(s, a)) < Work(s) && Step(s, a).closers == s.closers && !ByPeer(a)
  {
    var i := Pick(HeldIn(s.dials));
    assert DialInv(s.dials[i]);
    var op := HeldDialMoves(s.dials[i], s.closing, s.cancelled);
    a := OnDial(i, op);
    DialsWorkUpdate(s.dials, i, DialStep(s.dials[i], op, s.closing, s.cancelled));
    assert Step(s, a).dials == s.dials[i := DialStep(s.dials[i], op, s.closing, s.cancelled)];
  }

  /** The Close call that the one numbered `j` depends on. */
  function Ahead(s: State, j: nat): nat
    requires j < |s.closers|
  {
    if s.closers[j].WaitDone? && s.doneCloses == 0 then s.first else j
  }

  lemma AheadCanMove(s: State, j: nat)
    requires CloseInv(s) && j < |s.closers| && !s.closers[j].CloseReturned?
    ensures Ahead(s, j) < |s.closers|
    ensures s.closers[Ahead(s, j)].WaitChildren? ==> s.cancelled
    ensures (s.closers[Ahead(s, j)].WaitChildren? ==> s.children == 0) ==>
              CloseStep(s, Ahead(s, j)).closers != s.closers
  {}

  /** As long as a Close call has not returned, something can be done about it without
      the peer. */
  lemma SomethingMoves(s: State, j: nat) returns (a: Action)
    requires Inv(s) && j < |s.closers| && !s.closers[j].CloseReturned?
    ensures Work(Step(s, a)) < Work(s) && |Step(s, a).closers| == |s.closers| && !ByPeer(a)
  {
    AheadCanMove(s, j);
    var k := Ahead(s, j);
    if s.closers[k].WaitChildren? && s.children != 0 {
      a := SomeDialMoves(s);
    } else {
      CloserMoves(s, k);
      a := OnClose(k);
    }
  }

  lemma {:induction false} CanFinish(s: State, j: nat) returns (actions: seq<Action>)
    requires Inv(s) && j < |s.closers|
    ensures j < |Run(Step, s, actions).closers| && Run(Step, s, actions).closers[j].CloseReturned?
    ensures forall a | a in actions :: !ByPeer(a)
    decreases Work(s)
  {
    if s.closers[j].CloseReturned? {
      actions := [];
    } else {
      var a := SomethingMoves(s, j);
      StepKeepsInv(s, a);
      var rest := CanFinish(Step(s, a), j);
      actions := [a] + rest;
      assert actions[1..] == rest;
    }
  }

  /** From every reachable state every Close call can still return, whatever the peer
      does or does not do: the cancellation is enough. */
  lemma CloseIsNeverStuck(before: seq<Action>, j: nat)
    requires j < |Run(Step, INITIAL, before).closers|
    ensures exists after :: (forall a | a in after :: !ByPeer(a)) &&
              var t := Run(Step, INITIAL, before + after); j < |t.closers| && t.closers[j].CloseReturned?
  {
    Always(before);
    var after := CanFinish(Run(Step, INITIAL, before), j);
    Compose(Step, INITIAL, before, after);
  }

  lemma {:induction false} CanRelease(s: State, i: nat) returns (actions: seq<Action>)
    requires Inv(s) && i < |s.dials| && s.dials[i].cancelled
    ensures i < |Run(Step, s, actions).dials| && !Held(Run(Step, s, actions).dials[i])
    ensures forall a | a in actions :: OwnStep(a, i)
    decreases DialWork(s.dials[i])
  {
    if !Held(s.dials[i]) {
      actions := [];
    } else {
      var a, t := CancelledDialMoves(s, i);
      var rest := CanRelease(t, i);
      actions := [a] + rest;
      assert actions[1..] == rest;
    }
  }

  lemma StepOfDial(s: State, i: nat, op: DialOp)
    requires i < |s.dials|
    ensures var t := Step(s, OnDial(i, op));
            i < |t.dials| && t.dials[i] == DialStep(s.dials[i], op, s.closing, s.cancelled)
  {}

  lemma CancelledDialMoves(s: State, i: nat) returns (a: Action, t: State)
    requires Inv(s) && i < |s.dials| && s.dials[i].cancelled && Held(s.dials[i])
    ensures t == Step(s, a) && Inv(t) && OwnStep(a, i)
    ensures i < |t.dials| && t.dials[i].cancelled && DialWork(t.dials[i]) < DialWork(s.dials[i])
  {
    assert DialInv(s.dials[i]);
    var op := HeldDialMoves(s.dials[i], s.closing, s.cancelled);
    a := OnDial(i, op);
    t := Step(s, a);
    StepOfDial(s, i, op);
    StepKeepsInv(s, a);
  }

  /** From every reachable state the slot of a dial that returned an error can still be
      released by that dial's own steps alone: the peer need not do anything, no Close
      is needed, and no other dial has to move. */
  lemma FailedDialIsNeverStuck(before: seq<Action>, i: nat)
    requires i < |Run(Step, INITIAL, before).dials| && Run(Step, INITIAL, before).dials[i].call == Returned(false)
    ensures exists after :: (forall a | a in after :: OwnStep(a, i)) &&
              var t := Run(Step, INITIAL, before + after); i < |t.dials| && !Held(t.dials[i])
  {
    Always(before);
    var s := Run(Step, INITIAL, before);
    assert DialInv(s.dials[i]);
    var after := [];
    if Held(s.dials[i]) { after := CanRelease(s, i); } else { assert Run(Step, s, []) == s; }
    Compose(Step, INITIAL, before, after);
  }

  /** The wait for the close response ends. */
  lemma AwaitingEnds(s: State, i: nat) returns (a: Action, t: State)
    requires Inv(s) && i < |s.dials| && s.dials[i].conn.AwaitingClose?
    ensures t == Step(s, a) && Inv(t) && OwnStep(a, i) && i < |t.dials| && t.dials[i].cancelled
  {
    a := OnDial(i, StopAwaiting);
    t := Step(s, a);
    StepOfDial(s, i, StopAwaiting);
    assert t.dials[i].cancelled;
    StepKeepsInv(s, a);
  }

  lemma CanReleaseClosed(s: State, i: nat) returns (actions: seq<Action>)
    requires Inv(s) && i < |s.dials| && !s.dials[i].conn.Open?
    ensures i < |Run(Step, s, actions).dials| && !Held(Run(Step, s, actions).dials[i])
    ensures forall a | a in actions :: OwnStep(a, i)
  {
    if s.dials[i].conn.AwaitingClose? {
      var a, t := AwaitingEnds(s, i);
      var rest := CanRelease(t, i);
      actions := [a] + rest;
      assert actions[1..] == rest;
    } else {
      assert DialInv(s.dials[i]);
      actions := CanRelease(s, i);
    }
  }

  /** From every reachable state the slot of a dial whose caller has closed its connection
      can still be released by that dial's own steps alone, even if the close response
      never comes. */
  lemma ClosedConnIsNeverStuck(before: seq<Action>, i: nat)
    requires i < |Run(Step, INITIAL, before).dials| && !Run(Step, INITIAL, before).dials[i].conn.Open?
    ensures exists after :: (forall a | a in after :: OwnStep(a, i)) &&
              var t := Run(Step, INITIAL, before + after); i < |t.dials| && !Held(t.dials[i])
  {
    Always(before);
    var after := CanReleaseClosed(Run(Step, INITIAL, before), i);
    Compose(Step, INITIAL, before, after);
  }

  /** A dial that got its connection holds its slot as long as its peer does not end the
      stream, its caller does not close the connection and no Close cancels the tunnel. */
  lemma OpenDialHoldsItsSlot(before: seq<Action>, after: seq<Action>, i: nat)
    requires var s := Run(Step, INITIAL, before);
             i < |s.dials| && s.dials[i].call == Returned(true) && s.dials[i].inner.Serving? && s.dials[i].conn.Open?
    requires forall a | a in after :: !ByPeer(a) && a != OnDial(i, CloseConn)
    requires !Run(Step, INITIAL, before + after).cancelled
    ensures var t := Run(Step, INITIAL, before + after); i < |t.dials| && Held(t.dials[i])
  {
    Always(before);
    Compose(Step, INITIAL, before, after);
    RunHoldsSlot(Run(Step, INITIAL, before), after, i);
  }

  ghost predicate OpenAndServing(s: State, i: nat) {
    && i < |s.dials| && DialInv(s.dials[i])
    && s.dials[i].call == Returned(true) && s.dials[i].inner.Serving? && s.dials[i].conn.Open?
  }

  lemma OpenDialStays(d: Dial, op: DialOp, closing: bool)
    requires d.call == Returned(true) && d.inner.Serving? && d.conn.Open? && !d.cancelled
    requires !op.PeerSetsUp? && !op.PeerEnds? && !op.CloseConn?
    ensures var e := DialStep(d, op, closing, false); e.call == d.call && e.inner == d.inner && e.conn == d.conn
  {}

  lemma StepHoldsSlot(s: State, a: Action, i: nat)
    requires OpenAndServing(s, i) && !ByPeer(a) && a != OnDial(i, CloseConn) && !s.cancelled
    ensures OpenAndServing(Step(s, a), i)
  {
    if a.OnDial? && a.i == i {
      DialStepKeepsInv(s.dials[i], a.op, s.closing, s.cancelled);
      OpenDialStays(s.dials[i], a.op, s.closing);
      assert Step(s, a).dials[i] == DialStep(s.dials[i], a.op, s.closing, false);
    } else {
      assert i < |Step(s, a).dials| && Step(s, a).dials[i] == s.dials[i];
    }
  }

  lemma {:induction false} RunHoldsSlot(s: State, actions: seq<Action>, i: nat)
    requires OpenAndServing(s, i) && (forall a | a in actions :: !ByPeer(a) && a != OnDial(i, CloseConn))
    requires !Run(Step, s, actions).cancelled
    ensures OpenAndServing(Run(Step, s, actions), i)
    decreases |actions|
  {
    if actions != [] {
      CancelLasts(s, actions);
      assert actions[0] in actions;
      StepHoldsSlot(s, actions[0], i);
      RunHoldsSlot(Step(s, actions[0]), actions[1..], i);
    }
  }

  lemma {:induction false} CancelLasts(s: State, actions: seq<Action>)
    ensures s.cancelled ==> Run(Step, s, actions).cancelled
    decreases |actions|
  {
    if actions != [] { CancelLasts(Step(s, actions[0]), actions[1..]); }
  }
}
