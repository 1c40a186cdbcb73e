/** The two totals of the dial protocol, the connections ever added to `established` and
    those counted as closed, against the history of the dials. Tallied says that they
    are the numbers of dials of the kind. Every step keeps it: addEstablished raises the
    one total and adds one dial to the set it counts; the update of a counter, which comes
    after the removal and outside its critical section, raises the other; and every other
    step leaves both totals and, of every dial, what is counted. Of the invariant of the
    protocol only the part called Light is needed for that: a dial is added once, and
    counted after it was removed. DialConservation draws the balance from it. */
module DialTallies {
  import opened Options
  import opened DialProtocol
  import opened DialProofs

  function AddedSet(s: State): set<DialId> { set d | d in s.dials && s.dials[d].added }

  function CountedSet(s: State, r: Reason): set<DialId> {
    set d | d in s.dials && s.dials[d].counted && s.dials[d].removed == Some(r)
  }

  /** Removed, with the counter update still to come. */
  function UncountedSet(s: State): set<DialId> {
    set d | d in s.dials && s.dials[d].removed.Some? && !s.dials[d].counted
  }

  function LiveSet(s: State): set<DialId> { set d | d in s.dials && s.dials[d].added && s.dials[d].removed.None? }

  ghost predicate Tallied(s: State) {
    && s.addedTotal == |AddedSet(s)|
    && forall r: Reason :: ClosedTotal(s, r) == |CountedSet(s, r)|
  }

  /** Nothing that is counted differs between `s` and `t`. */
  ghost predicate SameTallies(s: State, t: State) {
    && t.addedTotal == s.addedTotal && t.closedTotal == s.closedTotal
    && s.dials.Keys <= t.dials.Keys
    && (forall d | d in s.dials :: t.dials[d].added == s.dials[d].added && t.dials[d].counted == s.dials[d].counted
                                   && (s.dials[d].counted ==> t.dials[d].removed == s.dials[d].removed))
    && (forall d | d in t.dials && d !in s.dials :: !t.dials[d].added && !t.dials[d].counted)
  }

  lemma SameTalliesKeep(s: State, t: State)
    requires Tallied(s) && SameTallies(s, t)
    ensures Tallied(t)
  {
    assert AddedSet(t) == AddedSet(s);
    forall r: Reason ensures CountedSet(t, r) == CountedSet(s, r) {}
  }

  /** What the tallies need to know of the invariant. */
  ghost predicate Light(s: State) {
    && (forall d | d in s.dials ::
          && (s.dials[d].counted ==> s.dials[d].removed.Some? && !IsEstablished(s, d))
          && (s.dials[d].removed.Some? ==> s.dials[d].added))
    && (forall b | b in s.backends && s.backends[b].loop.Claimed? && s.backends[b].loop.dial in s.dials ::
          !s.dials[s.backends[b].loop.dial].added)
  }

  lemma InvIsLight(s: State)
    requires Inv(s)
    ensures Light(s)
  {
    forall d | d in s.dials ensures DialInv(ViewOf(s, d)) {}
    forall b | b in s.backends && s.backends[b].loop.Claimed? && s.backends[b].loop.dial in s.dials
      ensures !s.dials[s.backends[b].loop.dial].added
    {
      assert s.backends[b].loop.dial in Held(s.backends[b].loop);
      assert DialInv(ViewOf(s, s.backends[b].loop.dial));
    }
  }

  lemma EstablishTallied(s: State, b: BackendId, d: DialId)
    requires Light(s) && Tallied(s) && b in s.backends && Known(s, d) && s.dials[d].backend == b
    ensures Tallied(HeldStep(s, b, d, Establish))
  {
    var t := HeldStep(s, b, d, Establish);
    if t != s {
      assert AddedSet(t) == AddedSet(s) + {d};
      forall r: Reason ensures CountedSet(t, r) == CountedSet(s, r) {}
    }
  }

  /** The counted dial joins the set of its own reason and no other. */
  lemma CountJoins(s: State, d: DialId, r: Reason, q: Reason)
    requires d in s.dials && s.dials[d].removed == Some(r) && !s.dials[d].counted
    ensures d !in CountedSet(s, q)
    ensures var t := CountStep(s, d, r); CountedSet(t, q) == if q == r then CountedSet(s, q) + {d} else CountedSet(s, q)
  {}

  lemma CountTallied(s: State, d: DialId, r: Reason)
    requires Tallied(s) && d in s.dials && s.dials[d].removed == Some(r) && !s.dials[d].counted
    ensures Tallied(CountStep(s, d, r))
  {
    var t := CountStep(s, d, r);
    assert AddedSet(t) == AddedSet(s);
    forall q: Reason ensures ClosedTotal(t, q) == |CountedSet(t, q)| { CountJoins(s, d, r, q); }
  }

  lemma TakeTallied(s: State, d: DialId)
    requires Tallied(s) && Known(s, d)
    ensures Tallied(TakeStep(s, d))
  {
    SameTalliesKeep(s, TakeStep(s, d));
  }

  lemma AgentCloseTallied(s: State, d: DialId)
    requires Light(s) && Tallied(s) && Known(s, d)
    ensures Tallied(AgentCloseStep(s, d))
  {
    SameTalliesKeep(s, AgentCloseStep(s, d));
  }

  lemma AgentDataTallied(s: State, d: DialId)
    requires Tallied(s) && Known(s, d)
    ensures Tallied(AgentDataStep(s, d))
  {
    if !IsEstablished(s, d) { OneDialTallied(s, AgentDataStep(s, d), d, AskedLate(s.dials[d])); }
  }

  lemma DropRejectedTallied(s: State, b: BackendId, d: DialId)
    requires Light(s) && Tallied(s) && b in s.backends && Known(s, d) && s.dials[d].backend == b
    ensures Tallied(HeldStep(s, b, d, DropRejected))
  {
    var t := HeldStep(s, b, d, DropRejected);
    if t != s { OneDialTallied(s, t, d, t.dials[d]); }
  }

  /** The receive loop answers a dial or passes something on to its frontend. */
  lemma MoveTallied(s: State, b: BackendId, d: DialId, x: Dial, l: Loop)
    requires Tallied(s) && d in s.dials && b in s.backends
    requires x.added == s.dials[d].added && x.counted == s.dials[d].counted && x.removed == s.dials[d].removed
    ensures Tallied(SetLoop(SetDial(s, d, x), b, l))
  {
    OneDialTallied(s, SetLoop(SetDial(s, d, x), b, l), d, x);
  }

  function Responded(x: Dial, ok: bool): (y: Dial)
    requires x.reply.Opened?
    ensures y.added == x.added && y.counted == x.counted && y.removed == x.removed
  {
    if ok then Accepted(x) else RefusedBy(x)
  }

  lemma RespondTallied(s: State, b: BackendId, d: DialId, ok: bool)
    requires Tallied(s) && b in s.backends && Known(s, d) && s.dials[d].backend == b
    requires HeldStep(s, b, d, Respond(ok)) != s
    ensures Tallied(HeldStep(s, b, d, Respond(ok)))
  {
    var x, l := Responded(s.dials[d], Accepts(s, d, ok)), if Accepts(s, d, ok) then Idle else Rejected(d);
    assert HeldStep(s, b, d, Respond(ok)) == SetLoop(SetDial(s, d, x), b, l);
    MoveTallied(s, b, d, x, l);
  }

  lemma HeldTallied(s: State, b: BackendId, d: DialId, op: HeldOp)
    requires Light(s) && Tallied(s) && b in s.backends && Known(s, d) && s.dials[d].backend == b
    requires HeldStep(s, b, d, op) != s
    ensures Tallied(HeldStep(s, b, d, op))
  {
    var x, l := s.dials[d], s.backends[b].loop;
    match op
    case Establish => EstablishTallied(s, b, d);
    case DropRejected => DropRejectedTallied(s, b, d);
    case Respond(ok) => RespondTallied(s, b, d, ok);
    case AskClose => MoveTallied(s, b, d, Asked(x), Idle);
    case Forward(ok) => MoveTallied(s, b, d, Told(x, l.outcome, ok), Idle);
    case ForwardClose => MoveTallied(s, b, d, ClosedByAgent(x), Idle);
    case NotifyLost(ok) => MoveTallied(s, b, d, Told(x, DialFailed, ok), LosingDials(l.dials - {d}));
    case NotifyClosed => MoveTallied(s, b, d, ClosedByAgent(x), LosingConns(l.dials - {d}));
  }

  /** A step that changes the dials map at `d` only. */
  lemma OneDialTallied(s: State, t: State, d: DialId, x: Dial)
    requires Tallied(s) && d in s.dials && t.dials == s.dials[d := x]
    requires t.addedTotal == s.addedTotal && t.closedTotal == s.closedTotal
    requires x.added == s.dials[d].added && x.counted == s.dials[d].counted
    requires x.counted ==> x.removed == s.dials[d].removed
    ensures Tallied(t)
  {
    SameTalliesKeep(s, t);
  }

  lemma ClaimTallied(s: State, d: DialId, path: Path)
    requires Tallied(s) && d in s.dials
    ensures Tallied(Claim(s, d, path))
  {
    OneDialTallied(s, Claim(s, d, path), d, ClaimedBy(s.dials[d], d in s.pending, path));
  }

  lemma DropTallied(s: State, d: DialId, r: Reason)
    requires Light(s) && Tallied(s) && Known(s, d)
    ensures Tallied(Drop(s, d, r))
  {
    OneDialTallied(s, Drop(s, d, r), d, DroppedBy(s.dials[d], IsEstablished(s, d), r));
  }

  lemma CloseTallied(s: State, d: DialId)
    requires Light(s) && Tallied(s) && Known(s, d) && s.dials[d].frontend.InProcess?
    ensures Tallied(DialerStep(s, d, RemoveOnClose))
  {
    var t := DialerStep(s, d, RemoveOnClose);
    if s.dials[d].closer == Marked(0) {
      ClaimTallied(s, d, Dialer);
      OneDialTallied(Claim(s, d, Dialer), t, d, t.dials[d]);
    } else if s.dials[d].closer.Marked? {
      DropTallied(s, d, FrontendClose);
      OneDialTallied(Drop(s, d, FrontendClose), t, d, t.dials[d]);
    }
  }

  lemma GiveUpTallied(s: State, d: DialId)
    requires Tallied(s) && Known(s, d) && s.dials[d].frontend.InProcess?
    ensures Tallied(DialerStep(s, d, GiveUp))
  {
    ClaimTallied(s, d, Dialer);
    var t := DialerStep(s, d, GiveUp);
    if t != s { OneDialTallied(Claim(s, d, Dialer), t, d, t.dials[d]); }
  }

  lemma DialerTallied(s: State, d: DialId, op: DialerOp)
    requires Light(s) && Tallied(s) && Known(s, d) && s.dials[d].frontend.InProcess?
    ensures Tallied(DialerStep(s, d, op))
  {
    match op
    case RemoveOnClose => CloseTallied(s, d);
    case GiveUp => GiveUpTallied(s, d);
    case _ =>
      var t := DialerStep(s, d, op);
      if t != s { OneDialTallied(s, t, d, t.dials[d]); }
  }

  lemma NoticeTallied(s: State, d: DialId, path: Path)
    requires Tallied(s) && d in s.dials
    ensures Tallied(ClaimWithNotice(s, d, path))
  {
    ClaimTallied(s, d, path);
    var t := ClaimWithNotice(s, d, path);
    OneDialTallied(Claim(s, d, path), t, d, t.dials[d]);
  }

  lemma RewriteTallied(s: State, d: DialId, x: Dial)
    requires Tallied(s) && d in s.dials
    requires x.added == s.dials[d].added && x.counted == s.dials[d].counted && x.removed == s.dials[d].removed
    ensures Tallied(SetDial(s, d, x))
  {
    OneDialTallied(s, SetDial(s, d, x), d, x);
  }

  lemma StreamDialTallied(s: State, d: DialId, op: StreamDialOp)
    requires Tallied(s) && Known(s, d) && s.dials[d].frontend.Stream?
    ensures Tallied(StreamDialStep(s, d, op))
  {
    var t := StreamDialStep(s, d, op);
    if t != s {
      match op
      case CancelDial => ClaimTallied(s, d, FrontendCancel);
      case FailSend => NoticeTallied(s, d, SendFailure);
      case TimeOut => NoticeTallied(s, d, Timeout);
      case SendNotice(ok) => RewriteTallied(s, d, Told(s.dials[d], DialFailed, ok).(notice := false));
      case PassOnClose => RewriteTallied(s, d, AskedByClient(s.dials[d]));
    }
  }

  lemma ClaimAllTallied(s: State, ds: set<DialId>, path: Path)
    requires Tallied(s)
    ensures Tallied(ClaimAll(s, ds, path))
  {
    SameTalliesKeep(s, ClaimAll(s, ds, path));
  }

  lemma DropAllTallied(s: State, ds: set<DialId>, r: Reason)
    requires Light(s) && Tallied(s) && forall d | d in ds :: IsEstablished(s, d)
    ensures Tallied(DropAll(s, ds, r))
  {
    SameTalliesKeep(s, DropAll(s, ds, r));
  }

  lemma LoopTallied(s: State, b: BackendId, op: LoopOp)
    requires Light(s) && Tallied(s) && b in s.backends
    ensures Tallied(LoopStep(s, b, op))
  {
    ClaimAllTallied(s, PendingOver(s, b), AgentLoss);
    DropAllTallied(s, EstablishedOver(s, b), BackendClose);
    var t := LoopStep(s, b, op);
    var m := match op case LoseDials => ClaimAll(s, PendingOver(s, b), AgentLoss)
                      case LoseConns => DropAll(s, EstablishedOver(s, b), BackendClose)
                      case _ => s;
    if t != s { SameTalliesKeep(m, t); }
  }

  /** The cleanup of a stream moves on. */
  lemma CleanupTallied(s: State, u: StreamId, c: Cleanup)
    requires Tallied(s)
    ensures Tallied(s.(streams := s.streams[u := c]))
  {
    SameTalliesKeep(s, s.(streams := s.streams[u := c]));
  }

  lemma StreamTallied(s: State, u: StreamId, op: StreamOp)
    requires Light(s) && Tallied(s) && u in s.streams && StreamStep(s, u, op) != s
    ensures Tallied(StreamStep(s, u, op))
  {
    match op
    case Shutdown =>
      ClaimAllTallied(s, PendingOn(s, u), FrontendShutdown);
      CleanupTallied(ClaimAll(s, PendingOn(s, u), FrontendShutdown), u, DialsCleaned);
    case CleanConns =>
      DropAllTallied(s, EstablishedOn(s, u), FrontendClose);
      CleanupTallied(DropAll(s, EstablishedOn(s, u), FrontendClose), u, Telling(EstablishedOn(s, u)));
    case TellShutdown(d) =>
      RewriteTallied(s, d, Asked(s.dials[d]));
      CleanupTallied(SetDial(s, d, Asked(s.dials[d])), u, Telling(s.streams[u].dials - {d}));
    case FinishShutdown => CleanupTallied(s, u, Gone);
  }

  lemma AnswerTallied(s: State, d: DialId, reply: Reply)
    requires Tallied(s) && Known(s, d)
    ensures Tallied(AnswerStep(s, d, reply))
  {
    var t := AnswerStep(s, d, reply);
    if t != s { OneDialTallied(s, t, d, t.dials[d]); }
  }

  lemma ArrivalTallied(s: State, a: Action)
    requires Tallied(s) && (a.Connect? || a.OpenStream? || a.BeginInProcess? || a.BeginStream?)
    ensures Tallied(Step(s, a))
  {
    SameTalliesKeep(s, Step(s, a));
  }

  lemma StepTallied(s: State, a: Action)
    requires Light(s) && Tallied(s)
    ensures Tallied(Step(s, a))
  {
    if Step(s, a) != s {
      match a
      case Count(d) => CountTallied(s, d, s.dials[d].removed.value);
      case OnHeld(b, d, op) => HeldTallied(s, b, d, op);
      case AtLoop(b, op) => LoopTallied(s, b, op);
      case ByStream(u, op) => StreamTallied(s, u, op);
      case ByDialer(d, op) => DialerTallied(s, d, op);
      case OnStream(d, op) => StreamDialTallied(s, d, op);
      case TakeAnswer(d) => TakeTallied(s, d);
      case AgentCloses(d) => AgentCloseTallied(s, d);
      case AgentSends(d) => AgentDataTallied(s, d);
      case AgentAnswers(d, reply) => AnswerTallied(s, d, reply);
      case _ => ArrivalTallied(s, a);
    }
  }
}
