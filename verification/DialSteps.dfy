/** Every step of the dial protocol keeps the invariant. First, for each kind of step,
    what it makes of the one view it changes: these lemmas, named ViewKeeps, are about
    a single dial and hold the case analysis of the protocol. Then, with the frames,
    the same for the whole state, step by step: the dialing goroutine, serverConn.Close,
    the receive loop with an answer, a connection or a loss in hand, the frontend that
    cancels, times out or closes, the shutdown of a stream and the loss of an agent.
    At the end all actions together, and so all runs from the initial state. The
    statements about runs that a reader will look for are in DialSafety and
    DialConservation. */
module DialSteps {
  import opened Runs
  import opened DialProtocol
  import opened DialProofs

  // ----- What each local step keeps -----

  lemma BeginViewKeeps(b: BackendId, f: Frontend, lost: bool)
    ensures DialInv(View(NewDial(b, f), true, false, Elsewhere, lost, if f.InProcess? then NoStream else OnLive))
  {}

  lemma AnswerViewKeeps(v: View, reply: Reply)
    requires DialInv(v) && v.x.reply.Unanswered? && (reply.Opened? ==> reply.conn != 0)
    ensures DialInv(v.(x := v.x.(reply := reply)))
  {}

  lemma TakeViewKeeps(v: View, d: DialId)
    requires DialInv(v) && v.phase.Elsewhere? && !v.lost && !v.x.handled && !v.x.reply.Unanswered?
    ensures DialInv(TakeView(v, d))
  {}

  lemma AgentCloseViewKeeps(v: View, d: DialId)
    requires DialInv(v) && v.phase.Elsewhere? && HasConn(v.x)
    ensures DialInv(AgentCloseView(v, d))
  {}

  lemma AgentDataViewKeeps(v: View)
    requires DialInv(v) && v.phase.Elsewhere? && HasConn(v.x) && !v.est
    ensures DialInv(v.(x := AskedLate(v.x)))
  {}

  lemma EstablishViewKeeps(v: View)
    requires DialInv(v) && v.phase.InClaimed? && !v.lost
    ensures DialInv(HeldView(v, Establish))
  {}

  lemma AcceptedViewKeeps(v: View)
    requires DialInv(v) && v.phase.InAdded? && (v.x.frontend.InProcess? ==> !v.x.closed)
    ensures DialInv(v.(x := Accepted(v.x), phase := Elsewhere))
  {}

  lemma RefusedViewKeeps(v: View)
    requires DialInv(v) && v.phase.InAdded? && (v.x.frontend.InProcess? ==> v.x.closed)
    ensures DialInv(v.(x := RefusedBy(v.x), phase := InRejected))
  {}

  /** The receive loop takes back a connection its frontend refused. */
  lemma RejectViewKeeps(v: View)
    requires DialInv(v)
    ensures DialInv(HeldView(v, DropRejected)) && DialInv(HeldView(v, AskClose))
  {}

  lemma ForwardViewKeeps(v: View, ok: bool)
    requires DialInv(v)
    ensures DialInv(HeldView(v, Forward(ok)))
  {}

  lemma NotifyLostViewKeeps(v: View, ok: bool)
    requires DialInv(v)
    ensures DialInv(HeldView(v, NotifyLost(ok)))
  {}

  lemma ForwardCloseViewKeeps(v: View)
    requires DialInv(v)
    ensures DialInv(HeldView(v, ForwardClose)) && DialInv(HeldView(v, NotifyClosed))
  {}

  lemma ReturnConnViewKeeps(v: View, contextDone: bool)
    requires DialInv(v) && v.x.frontend.InProcess?
    ensures DialInv(DialerView(v, ReturnConn, contextDone))
  {}

  lemma ReturnErrorViewKeeps(v: View, contextDone: bool)
    requires DialInv(v) && v.x.frontend.InProcess?
    ensures DialInv(DialerView(v, ReturnError, contextDone))
  {}

  lemma GiveUpViewKeeps(v: View)
    requires DialInv(v) && v.x.frontend.InProcess?
    ensures DialInv(DialerView(v, GiveUp, false))
  {}

  lemma StartCloseViewKeeps(v: View, contextDone: bool)
    requires DialInv(v) && v.x.frontend.InProcess?
    ensures DialInv(DialerView(v, StartClose, contextDone)) && DialInv(DialerView(v, AskOnClose, contextDone))
  {}

  lemma RemoveDialOnCloseViewKeeps(v: View)
    requires DialInv(v) && v.x.frontend.InProcess? && v.x.closer == Marked(0)
    ensures DialInv(DialerView(v, RemoveOnClose, false))
  {}

  lemma RemoveConnOnCloseViewKeeps(v: View)
    requires DialInv(v) && v.x.frontend.InProcess? && v.x.closer.Marked? && v.x.closer.conn != 0
    ensures DialInv(DialerView(v, RemoveOnClose, false))
  {}

  lemma CancelViewKeeps(v: View)
    requires DialInv(v) && v.x.frontend.Stream?
    ensures DialInv(StreamDialView(v, CancelDial)) && DialInv(StreamDialView(v, FailSend))
  {}

  lemma NoticeViewKeeps(v: View, ok: bool)
    requires DialInv(v) && v.x.frontend.Stream?
    ensures DialInv(StreamDialView(v, TimeOut)) && DialInv(StreamDialView(v, SendNotice(ok)))
  {}

  lemma PassOnCloseViewKeeps(v: View)
    requires DialInv(v) && v.x.frontend.Stream?
    ensures DialInv(StreamDialView(v, PassOnClose))
  {}

  lemma CountViewKeeps(v: View)
    requires DialInv(v) && v.x.removed.Some?
    ensures DialInv(v.(x := v.x.(counted := true)))
  {}

  // ----- Every step keeps the invariant -----

  lemma Conclude(s: State, t: State, d: DialId, v: View)
    requires Inv(s) && Becomes(s, t, d, v) && DialInv(v)
    ensures Inv(t)
  {
    Finish(s, t, d);
  }

  /** A step that rewrites the record of `d`. */
  lemma RewriteKeepsInv(s: State, d: DialId, x: Dial)
    requires Inv(s) && d in s.dials && SameRole(s.dials[d], x) && DialInv(ViewOf(s, d).(x := x))
    ensures Inv(SetDial(s, d, x))
  {
    SetDialFrame(s, d, x);
    Conclude(s, SetDial(s, d, x), d, ViewOf(s, d).(x := x));
  }

  /** A step that claims `d` and rewrites its record. */
  lemma ClaimKeepsInv(s: State, d: DialId, path: Path, x: Dial)
    requires Inv(s) && d in s.dials && SameRole(ClaimView(ViewOf(s, d), path).x, x)
    requires DialInv(ClaimView(ViewOf(s, d), path).(x := x))
    ensures Inv(SetDial(Claim(s, d, path), d, x))
  {
    var v := ClaimView(ViewOf(s, d), path);
    ClaimFrame(s, d, path);
    ThenSetDial(s, Claim(s, d, path), d, v, x);
    Conclude(s, SetDial(Claim(s, d, path), d, x), d, v.(x := x));
  }

  /** A step that rewrites the record of `d` and moves the loop that holds it. */
  lemma MoveKeepsInv(s: State, b: BackendId, d: DialId, x: Dial, l: Loop)
    requires Inv(s) && d in s.dials && s.dials[d].backend == b
    requires x.backend == b && x.frontend == s.dials[d].frontend && x.reply == s.dials[d].reply
    requires Held(l) <= {d} && Held(s.backends[b].loop) <= {d} && !Lost(l) && !Lost(s.backends[b].loop)
    requires DialInv(ViewOf(s, d).(x := x, phase := PhaseOf(l, d)))
    ensures Inv(SetLoop(SetDial(s, d, x), b, l))
  {
    MoveFrame(s, b, d, x, l);
    Conclude(s, SetLoop(SetDial(s, d, x), b, l), d, ViewOf(s, d).(x := x, phase := PhaseOf(l, d)));
  }

  /** A backend or a stream appears. */
  lemma ArrivalKeepsInv(s: State, a: Action)
    requires Inv(s) && (a.Connect? || a.OpenStream?) && Step(s, a) != s
    ensures Inv(Step(s, a))
  {
    if a.Connect? { ConnectFrame(s, a.b, a.agent); } else { OpenStreamFrame(s, a.u); }
    var t := Step(s, a);
    forall e | e in t.dials ensures DialInv(ViewOf(t, e)) { assert DialInv(ViewOf(s, e)); }
  }

  lemma BeginKeepsInv(s: State, d: DialId, b: BackendId, f: Frontend)
    requires Inv(s) && d !in s.dials && b in s.backends
    requires f.Stream? ==> f.uid in s.streams && s.streams[f.uid].Live?
    ensures Inv(SetDial(s, d, NewDial(b, f)).(pending := s.pending + {d}))
  {
    BeginFrame(s, d, b, f);
    BeginViewKeeps(b, f, Lost(s.backends[b].loop));
    var t := SetDial(s, d, NewDial(b, f)).(pending := s.pending + {d});
    forall e | e in t.dials ensures DialInv(ViewOf(t, e)) { if e != d { assert DialInv(ViewOf(s, e)); } }
  }

  lemma AnswerKeepsInv(s: State, d: DialId, reply: Reply)
    requires Inv(s) && d in s.dials && s.dials[d].reply.Unanswered? && AnswerStep(s, d, reply) != s
    ensures Inv(AnswerStep(s, d, reply))
  {
    if reply.Opened? { OpenFrame(s, d, reply.conn); } else { SetDialFrame(s, d, s.dials[d].(reply := reply)); }
    AnswerViewKeeps(ViewOf(s, d), reply);
    Conclude(s, AnswerStep(s, d, reply), d, ViewOf(s, d).(x := s.dials[d].(reply := reply)));
  }

  lemma TakeKeepsInv(s: State, d: DialId)
    requires Inv(s) && d in s.dials && s.backends[s.dials[d].backend].loop.Idle?
    requires !s.dials[d].reply.Unanswered? && !s.dials[d].handled
    ensures Inv(TakeStep(s, d))
  {
    TakeInView(s, d);
    TakeViewKeeps(ViewOf(s, d), d);
    Conclude(s, TakeStep(s, d), d, TakeView(ViewOf(s, d), d));
  }

  lemma AgentCloseKeepsInv(s: State, d: DialId)
    requires Inv(s) && d in s.dials && s.backends[s.dials[d].backend].loop.Idle? && HasConn(s.dials[d])
    ensures Inv(AgentCloseStep(s, d))
  {
    AgentCloseInView(s, d);
    AgentCloseViewKeeps(ViewOf(s, d), d);
    Conclude(s, AgentCloseStep(s, d), d, AgentCloseView(ViewOf(s, d), d));
  }

  lemma AgentDataKeepsInv(s: State, d: DialId)
    requires Inv(s) && d in s.dials && s.backends[s.dials[d].backend].loop.Idle? && HasConn(s.dials[d])
    ensures Inv(AgentDataStep(s, d))
  {
    if !IsEstablished(s, d) {
      AgentDataViewKeeps(ViewOf(s, d));
      RewriteKeepsInv(s, d, AskedLate(s.dials[d]));
    }
  }

  lemma AcceptKeepsInv(s: State, b: BackendId, d: DialId)
    requires Inv(s) && d in s.dials && s.dials[d].backend == b && s.dials[d].reply.Opened?
    requires s.backends[b].loop == Added(d) && Accepts(s, d, true)
    ensures Inv(SetLoop(SetDial(s, d, Accepted(s.dials[d])), b, Idle))
  {
    AcceptedViewKeeps(ViewOf(s, d));
    MoveKeepsInv(s, b, d, Accepted(s.dials[d]), Idle);
  }

  lemma RefuseKeepsInv(s: State, b: BackendId, d: DialId)
    requires Inv(s) && d in s.dials && s.dials[d].backend == b && s.dials[d].reply.Opened?
    requires s.backends[b].loop == Added(d) && !Accepts(s, d, false)
    ensures Inv(SetLoop(SetDial(s, d, RefusedBy(s.dials[d])), b, Rejected(d)))
  {
    RefusedViewKeeps(ViewOf(s, d));
    MoveKeepsInv(s, b, d, RefusedBy(s.dials[d]), Rejected(d));
  }

  lemma RespondKeepsInv(s: State, b: BackendId, d: DialId, ok: bool)
    requires Inv(s) && d in s.dials && s.dials[d].backend == b && HeldStep(s, b, d, Respond(ok)) != s
    ensures Inv(HeldStep(s, b, d, Respond(ok)))
  {
    if Accepts(s, d, ok) { AcceptKeepsInv(s, b, d); } else { RefuseKeepsInv(s, b, d); }
  }

  /** The receive loop, on a connection it is establishing or taking back. */
  lemma HandlerKeepsInv(s: State, b: BackendId, d: DialId, op: HeldOp)
    requires Inv(s) && d in s.dials && s.dials[d].backend == b && HeldStep(s, b, d, op) != s
    requires op.Establish? || op.Respond? || op.DropRejected? || op.AskClose?
    ensures Inv(HeldStep(s, b, d, op))
  {
    var v := ViewOf(s, d);
    assert DialInv(v);
    PhaseFacts(s.backends[b].loop, d);
    match op
    case Establish =>
      EstablishInView(s, b, d);
      EstablishViewKeeps(v);
      Conclude(s, HeldStep(s, b, d, Establish), d, HeldView(v, Establish));
    case Respond(ok) => RespondKeepsInv(s, b, d, ok);
    case DropRejected =>
      DropRejectedInView(s, b, d);
      RejectViewKeeps(v);
      Conclude(s, HeldStep(s, b, d, DropRejected), d, HeldView(v, DropRejected));
    case AskClose =>
      RejectViewKeeps(v);
      MoveKeepsInv(s, b, d, Asked(s.dials[d]), Idle);
  }

  /** The receive loop tells a frontend of a loss, one after another. */
  lemma LossNoticeKeepsInv(s: State, b: BackendId, d: DialId, x: Dial, l: Loop)
    requires Inv(s) && d in s.dials && s.dials[d].backend == b && d in Held(s.backends[b].loop)
    requires x.backend == b && x.frontend == s.dials[d].frontend && x.reply == s.dials[d].reply
    requires var k := s.backends[b].loop;
             || (k.LosingDials? && l == LosingDials(k.dials - {d}))
             || (k.LosingConns? && l == LosingConns(k.dials - {d}))
    requires DialInv(ViewOf(s, d).(x := x, phase := Elsewhere))
    ensures Inv(SetLoop(SetDial(s, d, x), b, l))
  {
    MoveSetFrame(s, b, d, x, l);
    Conclude(s, SetLoop(SetDial(s, d, x), b, l), d, ViewOf(s, d).(x := x, phase := Elsewhere));
  }

  /** The receive loop passes on an answer. */
  lemma ForwardKeepsInv(s: State, b: BackendId, d: DialId, ok: bool)
    requires Inv(s) && d in s.dials && s.dials[d].backend == b && HeldStep(s, b, d, Forward(ok)) != s
    ensures Inv(HeldStep(s, b, d, Forward(ok)))
  {
    PhaseFacts(s.backends[b].loop, d);
    ForwardViewKeeps(ViewOf(s, d), ok);
    MoveKeepsInv(s, b, d, Told(s.dials[d], s.backends[b].loop.outcome, ok), Idle);
  }

  /** It passes on a close. */
  lemma ForwardCloseKeepsInv(s: State, b: BackendId, d: DialId)
    requires Inv(s) && d in s.dials && s.dials[d].backend == b && HeldStep(s, b, d, ForwardClose) != s
    ensures Inv(HeldStep(s, b, d, ForwardClose))
  {
    PhaseFacts(s.backends[b].loop, d);
    ForwardCloseViewKeeps(ViewOf(s, d));
    MoveKeepsInv(s, b, d, ClosedByAgent(s.dials[d]), Idle);
  }

  /** It tells a frontend that the agent of its dial is lost. */
  lemma NotifyLostKeepsInv(s: State, b: BackendId, d: DialId, ok: bool)
    requires Inv(s) && d in s.dials && s.dials[d].backend == b && HeldStep(s, b, d, NotifyLost(ok)) != s
    ensures Inv(HeldStep(s, b, d, NotifyLost(ok)))
  {
    PhaseFacts(s.backends[b].loop, d);
    NotifyLostViewKeeps(ViewOf(s, d), ok);
    LossNoticeKeepsInv(s, b, d, Told(s.dials[d], DialFailed, ok), LosingDials(s.backends[b].loop.dials - {d}));
  }

  /** It tells a frontend that the agent of its connection is lost. */
  lemma NotifyClosedKeepsInv(s: State, b: BackendId, d: DialId)
    requires Inv(s) && d in s.dials && s.dials[d].backend == b && HeldStep(s, b, d, NotifyClosed) != s
    ensures Inv(HeldStep(s, b, d, NotifyClosed))
  {
    PhaseFacts(s.backends[b].loop, d);
    ForwardCloseViewKeeps(ViewOf(s, d));
    LossNoticeKeepsInv(s, b, d, ClosedByAgent(s.dials[d]), LosingConns(s.backends[b].loop.dials - {d}));
  }

  lemma HeldKeepsInv(s: State, b: BackendId, d: DialId, op: HeldOp)
    requires Inv(s) && d in s.dials && s.dials[d].backend == b && HeldStep(s, b, d, op) != s
    ensures Inv(HeldStep(s, b, d, op))
  {
    match op
    case Forward(ok) => ForwardKeepsInv(s, b, d, ok);
    case ForwardClose => ForwardCloseKeepsInv(s, b, d);
    case NotifyLost(ok) => NotifyLostKeepsInv(s, b, d, ok);
    case NotifyClosed => NotifyClosedKeepsInv(s, b, d);
    case _ => HandlerKeepsInv(s, b, d, op);
  }

  lemma CloseConnKeepsInv(s: State, d: DialId)
    requires Inv(s) && d in s.dials && s.dials[d].frontend.InProcess?
    requires s.dials[d].closer.Marked? && s.dials[d].closer.conn != 0
    ensures Inv(DialerStep(s, d, RemoveOnClose))
  {
    var v := ViewOf(s, d);
    assert DialInv(v);
    CloseConnectedInView(s, d);
    RemoveConnOnCloseViewKeeps(v);
    Conclude(s, DialerStep(s, d, RemoveOnClose), d, DialerView(v, RemoveOnClose, false));
  }

  /** The dialer gives up, or Close finds that no connection was made. */
  lemma DialerClaimKeepsInv(s: State, d: DialId, op: DialerOp)
    requires Inv(s) && d in s.dials && s.dials[d].frontend.InProcess?
    requires (op.GiveUp? && s.dials[d].caller.Dialing?) || (op.RemoveOnClose? && s.dials[d].closer == Marked(0))
    ensures Inv(DialerStep(s, d, op))
  {
    var v := ViewOf(s, d);
    assert DialInv(v);
    match op
    case GiveUp =>
      GiveUpViewKeeps(v);
      ClaimKeepsInv(s, d, Dialer, ClaimView(v, Dialer).x.(caller := Failed));
    case RemoveOnClose =>
      RemoveDialOnCloseViewKeeps(v);
      ClaimKeepsInv(s, d, Dialer, ClaimView(v, Dialer).x.(closer := Finished));
  }

  /** dialBackend returns. */
  lemma ReturnKeepsInv(s: State, d: DialId, op: DialerOp)
    requires Inv(s) && d in s.dials && s.dials[d].frontend.InProcess? && DialerStep(s, d, op) != s
    requires op.ReturnConn? || op.ReturnError?
    ensures Inv(DialerStep(s, d, op))
  {
    var v, x := ViewOf(s, d), s.dials[d];
    match op
    case ReturnConn =>
      ReturnConnViewKeeps(v, false);
      RewriteKeepsInv(s, d, x.(caller := Connected));
    case ReturnError =>
      ReturnErrorViewKeeps(v, false);
      RewriteKeepsInv(s, d, x.(caller := Failed));
  }

  /** Close marks the connection, or asks the agent to close it. */
  lemma CloseKeepsInv(s: State, d: DialId, op: DialerOp)
    requires Inv(s) && d in s.dials && s.dials[d].frontend.InProcess? && DialerStep(s, d, op) != s
    requires op.StartClose? || op.AskOnClose?
    ensures Inv(DialerStep(s, d, op))
  {
    var v, x := ViewOf(s, d), s.dials[d];
    StartCloseViewKeeps(v, s.backends[x.backend].contextDone);
    match op
    case StartClose => RewriteKeepsInv(s, d, x.(closed := true, closer := Marked(x.connID)));
    case AskOnClose => RewriteKeepsInv(s, d, Asked(x).(closer := Finished));
  }

  lemma DialerKeepsInv(s: State, d: DialId, op: DialerOp)
    requires Inv(s) && d in s.dials && s.dials[d].frontend.InProcess? && DialerStep(s, d, op) != s
    ensures Inv(DialerStep(s, d, op))
  {
    match op
    case ReturnConn => ReturnKeepsInv(s, d, op);
    case ReturnError => ReturnKeepsInv(s, d, op);
    case StartClose => CloseKeepsInv(s, d, op);
    case AskOnClose => CloseKeepsInv(s, d, op);
    case GiveUp => DialerClaimKeepsInv(s, d, op);
    case RemoveOnClose =>
      if s.dials[d].closer == Marked(0) { DialerClaimKeepsInv(s, d, op); } else { CloseConnKeepsInv(s, d); }
  }

  /** A dial of a stream is claimed by its frontend or the timeout. */
  lemma StreamClaimKeepsInv(s: State, d: DialId, op: StreamDialOp)
    requires Inv(s) && d in s.dials && s.dials[d].frontend.Stream? && StreamDialStep(s, d, op) != s
    requires op.CancelDial? || op.FailSend? || op.TimeOut?
    ensures Inv(StreamDialStep(s, d, op))
  {
    var v := ViewOf(s, d);
    assert DialInv(v);
    match op
    case CancelDial =>
      CancelViewKeeps(v);
      ClaimFrame(s, d, FrontendCancel);
      Conclude(s, Claim(s, d, FrontendCancel), d, ClaimView(v, FrontendCancel));
    case FailSend =>
      CancelViewKeeps(v);
      ClaimKeepsInv(s, d, SendFailure, ClaimView(v, SendFailure).x.(notice := true));
    case TimeOut =>
      NoticeViewKeeps(v, false);
      ClaimKeepsInv(s, d, Timeout, ClaimView(v, Timeout).x.(notice := true));
  }

  lemma SendNoticeKeepsInv(s: State, d: DialId, ok: bool)
    requires Inv(s) && d in s.dials && s.dials[d].frontend.Stream? && s.dials[d].notice
    ensures Inv(StreamDialStep(s, d, SendNotice(ok)))
  {
    NoticeViewKeeps(ViewOf(s, d), ok);
    RewriteKeepsInv(s, d, Told(s.dials[d], DialFailed, ok).(notice := false));
  }

  lemma PassOnCloseKeepsInv(s: State, d: DialId)
    requires Inv(s) && d in s.dials && s.dials[d].frontend.Stream? && StreamDialStep(s, d, PassOnClose) != s
    ensures Inv(StreamDialStep(s, d, PassOnClose))
  {
    PassOnCloseViewKeeps(ViewOf(s, d));
    RewriteKeepsInv(s, d, AskedByClient(s.dials[d]));
  }

  lemma StreamDialKeepsInv(s: State, d: DialId, op: StreamDialOp)
    requires Inv(s) && d in s.dials && s.dials[d].frontend.Stream? && StreamDialStep(s, d, op) != s
    ensures Inv(StreamDialStep(s, d, op))
  {
    match op
    case SendNotice(ok) => SendNoticeKeepsInv(s, d, ok);
    case PassOnClose => PassOnCloseKeepsInv(s, d);
    case _ => StreamClaimKeepsInv(s, d, op);
  }

  lemma CountKeepsInv(s: State, d: DialId, r: Reason)
    requires Inv(s) && d in s.dials && s.dials[d].removed.Some?
    ensures Inv(CountStep(s, d, r))
  {
    CountFrame(s, d, r);
    CountViewKeeps(ViewOf(s, d));
    Conclude(s, CountStep(s, d, r), d, ViewOf(s, d).(x := s.dials[d].(counted := true)));
  }

  // ----- Steps that touch many dials -----

  /** What the end of a receive loop does to a dial over its backend. */
  lemma LossViewKeeps(v: View)
    requires DialInv(v) && v.phase.Elsewhere?
    ensures v.pending && !v.lost ==> DialInv(ClaimView(v, AgentLoss).(phase := InLosingDials))
    ensures v.est ==> DialInv(DropView(v, BackendClose).(phase := InLosingConns, lost := true))
    ensures !v.est ==> DialInv(v.(lost := true))
  {}

  /** What the shutdown of a stream does to one of its dials. */
  lemma ShutdownViewKeeps(v: View)
    requires DialInv(v) && v.x.frontend.Stream? && v.shore.OnLive?
    ensures DialInv(ClaimView(v, FrontendShutdown).(shore := OnDialsCleaned))
  {}

  lemma CleanConnsViewKeeps(v: View)
    requires DialInv(v) && v.x.frontend.Stream? && v.shore.OnDialsCleaned?
    ensures DialInv(DropView(v, FrontendClose).(shore := OnTelling(v.est)))
  {}

  lemma TellShutdownViewKeeps(v: View)
    requires DialInv(v) && v.x.frontend.Stream? && v.shore == OnTelling(true)
    ensures DialInv(v.(x := Asked(v.x), shore := OnTelling(false)))
  {}

  lemma FinishShutdownViewKeeps(v: View)
    requires DialInv(v) && v.x.frontend.Stream? && v.shore == OnTelling(false)
    ensures DialInv(v.(shore := OnGone))
  {}

  function LoseDialView(v: View, b: BackendId): View {
    if v.pending && v.x.backend == b then ClaimView(v, AgentLoss).(phase := InLosingDials) else v
  }

  /** The view after the claim of `ds` and the move of the loop. */
  lemma LoseDialViewIs(v: View, b: BackendId, ds: set<DialId>, e: DialId)
    requires e in ds <==> v.pending && v.x.backend == b
    requires v.x.backend == b ==> v.phase.Elsewhere? && !v.lost
    ensures var w := if e in ds then ClaimView(v, AgentLoss) else v;
            LoopView(w, b, LosingDials(ds), e) == LoseDialView(v, b)
  {}

  /** The dials that a lost backend fails, or whose connections it drops. */
  lemma OverBackend(s: State, b: BackendId, e: DialId)
    requires Refs(s) && e in s.dials
    ensures e in PendingOver(s, b) <==> ViewOf(s, e).pending && ViewOf(s, e).x.backend == b
    ensures e in EstablishedOver(s, b) <==> ViewOf(s, e).est && ViewOf(s, e).x.backend == b
  {}

  lemma ClaimedOver(s: State, b: BackendId)
    requires Refs(s)
    ensures forall e | e in PendingOver(s, b) ::
              var m := ClaimAll(s, PendingOver(s, b), AgentLoss); e in m.dials && m.dials[e].backend == b
  {}

  lemma LoseDialsShape(s: State, b: BackendId)
    requires Shape(s) && b in s.backends && s.backends[b].loop.Ended?
    ensures var t := LoopStep(s, b, LoseDials); Shape(t) && t.dials.Keys == s.dials.Keys
  {
    var ds := PendingOver(s, b);
    ClaimAllShape(s, ds, AgentLoss);
    ClaimedOver(s, b);
    SetLoopShape(ClaimAll(s, ds, AgentLoss), b, LosingDials(ds));
  }

  lemma LoseDialsView(s: State, b: BackendId, e: DialId)
    requires Refs(s) && b in s.backends && s.backends[b].loop.Ended? && e in s.dials
    ensures var t := LoopStep(s, b, LoseDials); Known(t, e) && ViewOf(t, e) == LoseDialView(ViewOf(s, e), b)
  {
    var ds := PendingOver(s, b);
    ClaimAllView(s, ds, AgentLoss, e);
    LoopViewIs(ClaimAll(s, ds, AgentLoss), b, LosingDials(ds), e);
    OverBackend(s, b, e);
    NotHeldView(s, b, e);
    LoseDialViewIs(ViewOf(s, e), b, ds, e);
  }

  lemma LoseDialViewKeeps(v: View, b: BackendId)
    requires DialInv(v) && (v.x.backend == b ==> v.phase.Elsewhere? && !v.lost)
    ensures DialInv(LoseDialView(v, b))
  {
    if v.x.backend == b { LossViewKeeps(v); }
  }

  /** A loop that holds no dial. */
  lemma NotHeldView(s: State, b: BackendId, e: DialId)
    requires Known(s, e) && b in s.backends && Held(s.backends[b].loop) == {}
    ensures s.dials[e].backend == b ==> ViewOf(s, e).phase.Elsewhere? && ViewOf(s, e).lost == Lost(s.backends[b].loop)
  {}

  lemma LoseDialKeeps(s: State, b: BackendId, e: DialId)
    requires Refs(s) && b in s.backends && s.backends[b].loop.Ended? && e in s.dials && DialInv(ViewOf(s, e))
    ensures var t := LoopStep(s, b, LoseDials); Known(t, e) && DialInv(ViewOf(t, e))
  {
    LoseDialsView(s, b, e);
    NotHeldView(s, b, e);
    LoseDialViewKeeps(ViewOf(s, e), b);
  }

  lemma LoseDialsKeepsInv(s: State, b: BackendId)
    requires Inv(s) && b in s.backends && s.backends[b].loop.Ended?
    ensures Inv(LoopStep(s, b, LoseDials))
  {
    LoseDialsShape(s, b);
    forall e | e in s.dials ensures DialInv(ViewOf(LoopStep(s, b, LoseDials), e)) { LoseDialKeeps(s, b, e); }
  }

  function LoseConnView(v: View, b: BackendId): View {
    if v.x.backend != b then v
    else if v.est then DropView(v, BackendClose).(phase := InLosingConns, lost := true) else v.(lost := true)
  }

  /** The view after the removal of `es` and the move of the loop. */
  lemma LoseConnViewIs(v: View, b: BackendId, es: set<DialId>, e: DialId)
    requires e in es <==> v.est && v.x.backend == b
    requires v.x.backend == b ==> v.phase.Elsewhere?
    ensures var w := if e in es then DropView(v, BackendClose) else v;
            LoopView(w, b, LosingConns(es), e) == LoseConnView(v, b)
  {}

  lemma DroppedOver(s: State, b: BackendId)
    requires Refs(s)
    ensures forall e | e in EstablishedOver(s, b) ::
              var m := DropAll(s, EstablishedOver(s, b), BackendClose); e in m.dials && m.dials[e].backend == b
  {}

  lemma LoseConnsShape(s: State, b: BackendId)
    requires Shape(s) && b in s.backends && s.backends[b].loop == LosingDials({})
    ensures var t := LoopStep(s, b, LoseConns); Shape(t) && t.dials.Keys == s.dials.Keys
  {
    var es := EstablishedOver(s, b);
    DropAllShape(s, es, BackendClose);
    DroppedOver(s, b);
    SetLoopShape(DropAll(s, es, BackendClose), b, LosingConns(es));
  }

  lemma LoseConnsView(s: State, b: BackendId, e: DialId)
    requires Refs(s) && b in s.backends && s.backends[b].loop == LosingDials({}) && e in s.dials
    ensures var t := LoopStep(s, b, LoseConns); Known(t, e) && ViewOf(t, e) == LoseConnView(ViewOf(s, e), b)
  {
    var es := EstablishedOver(s, b);
    DropAllView(s, es, BackendClose, e);
    LoopViewIs(DropAll(s, es, BackendClose), b, LosingConns(es), e);
    OverBackend(s, b, e);
    NotHeldView(s, b, e);
    LoseConnViewIs(ViewOf(s, e), b, es, e);
  }

  lemma LoseConnViewKeeps(v: View, b: BackendId)
    requires DialInv(v) && (v.x.backend == b ==> v.phase.Elsewhere?)
    ensures DialInv(LoseConnView(v, b))
  {
    if v.x.backend == b { LossViewKeeps(v); }
  }

  lemma LoseConnKeeps(s: State, b: BackendId, e: DialId)
    requires Refs(s) && b in s.backends && s.backends[b].loop == LosingDials({}) && e in s.dials
    requires DialInv(ViewOf(s, e))
    ensures var t := LoopStep(s, b, LoseConns); Known(t, e) && DialInv(ViewOf(t, e))
  {
    LoseConnsView(s, b, e);
    NotHeldView(s, b, e);
    LoseConnViewKeeps(ViewOf(s, e), b);
  }

  lemma LoseConnsKeepsInv(s: State, b: BackendId)
    requires Inv(s) && b in s.backends && s.backends[b].loop == LosingDials({})
    ensures Inv(LoopStep(s, b, LoseConns))
  {
    LoseConnsShape(s, b);
    forall e | e in s.dials ensures DialInv(ViewOf(LoopStep(s, b, LoseConns), e)) { LoseConnKeeps(s, b, e); }
  }

  /** A receive loop that holds no dial moves on without changing any. */
  lemma LoopMoveKeepsInv(s: State, b: BackendId, l: Loop)
    requires Inv(s) && b in s.backends && Held(l) == {} && Held(s.backends[b].loop) == {}
    requires Lost(l) == Lost(s.backends[b].loop)
    ensures Inv(SetLoop(s, b, l))
  {
    LoopFrame(s, b, l);
    var t := SetLoop(s, b, l);
    forall e | e in t.dials ensures DialInv(ViewOf(t, e)) { assert ViewOf(t, e) == ViewOf(s, e); }
  }

  lemma EndContextKeepsInv(s: State, b: BackendId)
    requires Inv(s) && b in s.backends
    ensures Inv(LoopStep(s, b, EndContext))
  {
    var t := LoopStep(s, b, EndContext);
    assert HeldOk(t) && TellingOk(t);
    StaticsKeep(s, t);
    forall e | e in s.dials ensures IsEstablished(t, e) == IsEstablished(s, e) {}
    assert EstablishedOk(t);
    forall e | e in t.dials ensures DialInv(ViewOf(t, e)) {
      SameView(s, t, e);
      assert DialInv(ViewOf(s, e));
    }
  }

  lemma ShutdownKeepsInv(s: State, u: StreamId)
    requires Inv(s) && u in s.streams && s.streams[u].Live?
    ensures Inv(StreamStep(s, u, Shutdown))
  {
    var ds := PendingOn(s, u);
    var s1 := ClaimAll(s, ds, FrontendShutdown);
    ClaimAllFrame(s, ds, FrontendShutdown);
    CleanupFrame(s1, u, DialsCleaned);
    var t := s1.(streams := s1.streams[u := DialsCleaned]);
    forall e | e in t.dials ensures DialInv(ViewOf(t, e)) {
      assert DialInv(ViewOf(s, e));
      if s.dials[e].frontend == Stream(u) { ShutdownViewKeeps(ViewOf(s, e)); }
    }
  }

  lemma CleanConnsKeepsInv(s: State, u: StreamId)
    requires Inv(s) && u in s.streams && s.streams[u].DialsCleaned?
    ensures Inv(StreamStep(s, u, CleanConns))
  {
    var es := EstablishedOn(s, u);
    var s1 := DropAll(s, es, FrontendClose);
    DropAllFrame(s, es, FrontendClose);
    CleanupFrame(s1, u, Telling(es));
    var t := s1.(streams := s1.streams[u := Telling(es)]);
    forall e | e in t.dials ensures DialInv(ViewOf(t, e)) {
      assert DialInv(ViewOf(s, e));
      if s.dials[e].frontend == Stream(u) { CleanConnsViewKeeps(ViewOf(s, e)); }
    }
  }

  lemma TellShutdownFrame(s: State, u: StreamId, d: DialId)
    requires Shape(s) && u in s.streams && s.streams[u].Telling? && d in s.streams[u].dials && d in s.dials
    ensures Becomes(s, StreamStep(s, u, TellShutdown(d)), d,
                    ViewOf(s, d).(x := Asked(s.dials[d]), shore := OnTelling(false)))
  {
    var x := Asked(s.dials[d]);
    var m := SetDial(s, d, x);
    SetDialFrame(s, d, x);
    ToldOneFrame(m, u, d);
    var v := ViewOf(s, d).(x := x);
    Chain(s, m, StreamStep(s, u, TellShutdown(d)), d, v, v.(shore := OnTelling(false)));
  }

  lemma ToldOneFrame(s: State, u: StreamId, d: DialId)
    requires Shape(s) && u in s.streams && s.streams[u].Telling? && d in s.streams[u].dials && d in s.dials
    ensures var t := s.(streams := s.streams[u := Telling(s.streams[u].dials - {d})]);
            Becomes(s, t, d, ViewOf(s, d).(shore := OnTelling(false)))
  {
    CleanupFrame(s, u, Telling(s.streams[u].dials - {d}));
  }

  lemma TellShutdownKeepsInv(s: State, u: StreamId, d: DialId)
    requires Inv(s) && u in s.streams && s.streams[u].Telling? && d in s.streams[u].dials && d in s.dials
    ensures Inv(StreamStep(s, u, TellShutdown(d)))
  {
    var v := ViewOf(s, d);
    assert DialInv(v) && v.shore == OnTelling(true);
    TellShutdownViewKeeps(v);
    TellShutdownFrame(s, u, d);
    Conclude(s, StreamStep(s, u, TellShutdown(d)), d, v.(x := Asked(v.x), shore := OnTelling(false)));
  }

  lemma FinishShutdownKeepsInv(s: State, u: StreamId)
    requires Inv(s) && u in s.streams && s.streams[u] == Telling({})
    ensures Inv(StreamStep(s, u, FinishShutdown))
  {
    CleanupFrame(s, u, Gone);
    var t := s.(streams := s.streams[u := Gone]);
    forall e | e in t.dials ensures DialInv(ViewOf(t, e)) {
      assert DialInv(ViewOf(s, e));
      if s.dials[e].frontend == Stream(u) { FinishShutdownViewKeeps(ViewOf(s, e)); }
    }
  }

  lemma LoopsKeepInv(s: State, b: BackendId, op: LoopOp)
    requires Inv(s) && b in s.backends && LoopStep(s, b, op) != s
    ensures Inv(LoopStep(s, b, op))
  {
    match op
    case LoseDials => LoseDialsKeepsInv(s, b);
    case LoseConns => LoseConnsKeepsInv(s, b);
    case EndContext => EndContextKeepsInv(s, b);
    case EndLoop => LoopMoveKeepsInv(s, b, Ended);
    case ExitLoop => LoopMoveKeepsInv(s, b, Exited);
  }

  lemma StreamsKeepInv(s: State, u: StreamId, op: StreamOp)
    requires Inv(s) && u in s.streams && StreamStep(s, u, op) != s
    ensures Inv(StreamStep(s, u, op))
  {
    match op
    case Shutdown => ShutdownKeepsInv(s, u);
    case CleanConns => CleanConnsKeepsInv(s, u);
    case TellShutdown(d) => TellShutdownKeepsInv(s, u, d);
    case FinishShutdown => FinishShutdownKeepsInv(s, u);
  }

  lemma StepKeepsInv(s: State, a: Action)
    requires Inv(s)
    ensures Inv(Step(s, a))
  {
    if Step(s, a) != s {
      match a
      case BeginInProcess(d, b) => BeginKeepsInv(s, d, b, InProcess);
      case BeginStream(d, b, u) => BeginKeepsInv(s, d, b, Stream(u));
      case AgentAnswers(d, reply) => AnswerKeepsInv(s, d, reply);
      case TakeAnswer(d) => TakeKeepsInv(s, d);
      case AgentCloses(d) => AgentCloseKeepsInv(s, d);
      case AgentSends(d) => AgentDataKeepsInv(s, d);
      case OnHeld(b, d, op) => HeldKeepsInv(s, b, d, op);
      case ByDialer(d, op) => DialerKeepsInv(s, d, op);
      case OnStream(d, op) => StreamDialKeepsInv(s, d, op);
      case Count(d) => CountKeepsInv(s, d, s.dials[d].removed.value);
      case Connect(_, _) => ArrivalKeepsInv(s, a);
      case OpenStream(_) => ArrivalKeepsInv(s, a);
      case AtLoop(b, op) => LoopsKeepInv(s, b, op);
      case ByStream(u, op) => StreamsKeepInv(s, u, op);
    }
  }

  lemma Always(actions: seq<Action>)
    ensures Inv(Run(Step, INITIAL, actions))
  {
    forall t, a | Inv(t) ensures Inv(Step(t, a)) { StepKeepsInv(t, a); }
    Invariance(Step, Inv, INITIAL, actions);
  }
}
