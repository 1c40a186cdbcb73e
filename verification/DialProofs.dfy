/** What the dial protocol keeps in every interleaving. The invariant is local to
    each dial: it relates the dial's own record to its place in the two maps, to
    what the receive loop of its backend is doing with it, and to the cleanup of
    its frontend stream.

    A View is all of that for one dial, and DialInv the invariant of a view. The
    lemmas named Frame say of each building block of a step which view it changes,
    how, and that it changes no other; the lemmas named InView put them together
    for a whole step. What is left to show of a step is that it keeps DialInv of
    the one view it changes. */
module DialProofs {
  import opened Options
  import opened DialProtocol

  /** What a receive loop is doing with one particular dial. */
  datatype Phase =
    | Elsewhere | InClaimed | InAdded | InRejected | InAsking
    | InForwarding(outcome: Outcome) | InForwardingClose | InLosingDials | InLosingConns

  /** How far the cleanup of the dial's own frontend stream is. */
  datatype Shore = NoStream | OnLive | OnDialsCleaned | OnTelling(mine: bool) | OnGone

  /** Everything about one dial. */
  datatype View = View(x: Dial, pending: bool, est: bool, phase: Phase, lost: bool, shore: Shore)

  function PhaseOf(l: Loop, d: DialId): Phase {
    if d !in Held(l) then Elsewhere
    else
      match l
      case Claimed(_) => InClaimed
      case Added(_) => InAdded
      case Rejected(_) => InRejected
      case Asking(_) => InAsking
      case Forwarding(_, o) => InForwarding(o)
      case ForwardingClose(_) => InForwardingClose
      case LosingDials(_) => InLosingDials
      case LosingConns(_) => InLosingConns
      case _ => Elsewhere
  }

  function ShoreOf(s: State, d: DialId): Shore
    requires Known(s, d)
  {
    match s.dials[d].frontend
    case InProcess => NoStream
    case Stream(u) =>
      match s.streams[u]
      case Live => OnLive
      case DialsCleaned => OnDialsCleaned
      case Telling(ds) => OnTelling(d in ds)
      case Gone => OnGone
  }

  /** The receive loop has dropped the connections over its backend. */
  predicate Lost(l: Loop) { l.LosingConns? || l.Exited? }

  function ViewOf(s: State, d: DialId): View
    requires Known(s, d)
  {
    var l := s.backends[s.dials[d].backend].loop;
    View(s.dials[d], d in s.pending, IsEstablished(s, d), PhaseOf(l, d), Lost(l), ShoreOf(s, d))
  }

  predicate InHand(p: Phase) { p.InClaimed? || p.InAdded? || p.InRejected? || p.InAsking? }

  predicate HasConn(x: Dial) { x.handled && x.reply.Opened? }

  /** The CLOSE_REQs that the server sends of its own accord: by the handler of the
      DIAL_RSP, by Close and by the cleanup of a stream. */
  function OwnAsks(x: Dial): int { x.asks.total - x.asks.late - x.asks.forwarded }

  /** One path claims a dial, and only its claimant reports on it. */
  ghost predicate ClaimInv(v: View) {
    var x := v.x;
    && |x.claims| == (if v.pending then 0 else 1)
    && |x.answers| <= 1
    && (v.pending ==> v.phase.Elsewhere? && !x.handled && !x.notice && x.answers == [] && x.caller.Dialing? && !x.closed
                      && x.closer.NotClosed? && (v.shore.NoStream? || v.shore.OnLive?))
    && (x.notice ==> x.answers == [] && x.claims[0] in {SendFailure, Timeout})
    && (v.phase.InForwarding? ==> x.answers == [] && x.claims[0] in {Response, AgentCancel} && x.handled
                                  && !x.reply.Opened? && v.phase.outcome in {DialFailed, DialCancelled})
    && (v.phase.InLosingDials? ==> x.answers == [] && x.claims == [AgentLoss])
    && (v.phase.InClaimed? || v.phase.InAdded? || v.phase.InRejected? ==> x.claims == [Response])
    && (v.phase.InClaimed? || v.phase.InAdded? ==> x.answers == [])
    && (v.phase.InRejected? ==> !WasAccepted(x))
    && (x.added ==> x.claims == [Response])
    && (x.answers != [] && x.answers[0].outcome.DialSucceeded? ==>
          x.claims == [Response] && x.reply == Opened(x.answers[0].outcome.conn) && x.added)
    && (x.caller.Failed? ==> !v.pending)
  }

  /** Where the connection of a dial is. */
  ghost predicate PlaceInv(v: View) {
    var x := v.x;
    && (x.handled ==> !x.reply.Unanswered?)
    && (x.reply.Opened? ==> x.reply.conn != 0)
    && (!HasConn(x) ==> x.asks == Requests(0, 0, 0) && !x.added && x.connID == 0 && !x.agentClosed && !InHand(v.phase))
    && (v.est <==> x.added && x.removed.None?)
    && (x.removed.Some? ==> x.added)
    && (x.counted ==> x.removed.Some?)
    && (InHand(v.phase) ==> x.connID == 0 && !x.agentClosed && !v.lost)
    && (v.phase.InClaimed? ==> !x.added && OwnAsks(x) == 0)
    && (v.phase.InAdded? || v.phase.InRejected? ==> x.added)
    && (v.phase.InAsking? ==> !v.est)
    && (v.phase.InForwardingClose? ==> x.agentClosed && x.removed == Some(CloseResponse))
    && (v.phase.InLosingConns? ==> x.removed == Some(BackendClose))
    && (x.removed == Some(BackendClose) ==> v.lost)
    && (x.removed == Some(CloseResponse) ==> x.agentClosed)
    && (v.lost ==> !v.est)
  }

  /** An in-process dial: the agent is asked to close a connection once, by the
      receive loop if the serverConn refused it and by Close if it accepted it. */
  ghost predicate InProcessInv(v: View) {
    var x := v.x;
    && v.shore.NoStream? && !x.addedLate && x.asks.forwarded == 0
    && (InHand(v.phase) ==> OwnAsks(x) == 0)
    && (v.phase.InAdded? || v.phase.InRejected? ==> x.removed.None?)
    && (v.phase.InRejected? ==> x.closed)
    && (x.connID != 0 ==> HasConn(x) && x.connID == x.reply.conn && x.added && !InHand(v.phase)
                          && x.answers == [Answer(DialSucceeded(x.connID), true)])
    && (HasConn(x) && !InHand(v.phase) && x.connID == 0 ==> OwnAsks(x) == 1 && !v.est)
    && (x.connID == 0 && x.added ==> x.removed == None || x.removed == Some(SendResponse))
    && (x.connID != 0 ==> match x.removed
                          case None => OwnAsks(x) == 0
                          case Some(FrontendClose) => OwnAsks(x) == (if x.closer.Finished? then 1 else 0)
                                                      && (x.closer.Finished? || x.closer.Removed?)
                          case Some(CloseResponse) => OwnAsks(x) == 0
                          case Some(BackendClose) => OwnAsks(x) == 0
                          case Some(SendResponse) => false)
    && (!x.closer.NotClosed? ==> x.closed)
    && (x.closer.Marked? ==> x.closer.conn == x.connID)
    && (x.closer.Removed? ==> x.connID != 0 && x.removed == Some(FrontendClose))
    && (x.closer.Finished? ==> !v.pending && (x.connID != 0 ==> x.removed.Some?))
    && (x.caller.Connected? ==> x.connID != 0)
  }

  /** A dial of a frontend stream: once the stream is gone, the agent has been asked to
      close its connection, unless that was added too late and taken all the same. */
  ghost predicate StreamInv(v: View) {
    var x := v.x;
    && !v.shore.NoStream?
    && x.caller.Dialing? && x.closer.NotClosed? && x.connID == 0
    && (HasConn(x) ==> OwnAsks(x) == (if InHand(v.phase) || WasAccepted(x) then 0 else 1)
                                  + (if x.removed == Some(FrontendClose) && v.shore != OnTelling(true) then 1 else 0))
    && (x.added && x.removed.None? && !InHand(v.phase) ==> WasAccepted(x))
    && (v.phase.InAdded? || v.phase.InRejected? ==> x.removed.None? || x.removed == Some(FrontendClose))
    && (v.phase.InAsking? ==> !WasAccepted(x))
    && (x.removed == Some(SendResponse) ==> !WasAccepted(x))
    && (x.removed == Some(CloseResponse) || x.removed == Some(BackendClose) ==> WasAccepted(x))
    && (v.shore == OnTelling(true) ==> x.removed == Some(FrontendClose))
    && (v.est && (v.shore.OnTelling? || v.shore.OnGone?) ==> x.addedLate)
    && (x.addedLate ==> x.added && x.removed != Some(FrontendClose) && (v.shore.OnTelling? || v.shore.OnGone?))
  }

  ghost predicate DialInv(v: View) {
    && ClaimInv(v)
    && PlaceInv(v)
    && (if v.x.frontend.InProcess? then InProcessInv(v) else StreamInv(v))
  }

  /** Everything referred to exists. */
  ghost predicate Refs(s: State) {
    && s.pending <= s.dials.Keys
    && (forall d | d in s.dials :: Known(s, d))
  }

  ghost predicate KeysDistinct(s: State)
    requires Refs(s)
  {
    forall d {:trigger Key(s, d)} | d in s.dials && s.dials[d].reply.Opened? ::
      Key(s, d) in s.owners && s.owners[Key(s, d)] == d
  }

  ghost predicate EstablishedOk(s: State)
    requires Refs(s)
  {
    forall k | k in s.established :: IsEstablished(s, s.established[k]) && Key(s, s.established[k]) == k
  }

  ghost predicate HeldOk(s: State) {
    forall b, d | b in s.backends && d in Held(s.backends[b].loop) :: d in s.dials && s.dials[d].backend == b
  }

  ghost predicate TellingOk(s: State) {
    forall u, d | u in s.streams && s.streams[u].Telling? && d in s.streams[u].dials ::
      d in s.dials && s.dials[d].frontend == Stream(u)
  }

  ghost predicate Shape(s: State) {
    Refs(s) && KeysDistinct(s) && EstablishedOk(s) && HeldOk(s) && TellingOk(s)
  }

  ghost predicate Inv(s: State) {
    Shape(s) && forall d {:trigger ViewOf(s, d)} | d in s.dials :: DialInv(ViewOf(s, d))
  }

  // ----- What the building blocks of a step change -----

  /** `t` differs from `s` at most in what it says about `d`. */
  ghost predicate SameElsewhere(s: State, t: State, d: DialId)
    requires Refs(s) && Refs(t)
  {
    && t.dials.Keys == s.dials.Keys
    && forall e {:trigger ViewOf(t, e)} | e in s.dials && e != d :: ViewOf(t, e) == ViewOf(s, e)
  }

  /** In `t` the view of `d` is `v` and nothing else has changed. */
  ghost predicate Becomes(s: State, t: State, d: DialId, v: View)
    requires Refs(s)
  {
    Shape(t) && SameElsewhere(s, t, d) && d in t.dials && ViewOf(t, d) == v
  }

  lemma Finish(s: State, t: State, d: DialId)
    requires Inv(s) && Shape(t) && SameElsewhere(s, t, d)
    requires d in t.dials ==> DialInv(ViewOf(t, d))
    ensures Inv(t)
  {
    forall e | e in t.dials ensures DialInv(ViewOf(t, e)) {
      assert DialInv(ViewOf(s, e));
    }
  }

  /** The parts of a record that fix the key of its connection are the same. */
  predicate SameRole(x: Dial, y: Dial) {
    && y.backend == x.backend && y.frontend == x.frontend
    && (y.reply == x.reply || (!y.reply.Opened? && !x.reply.Opened?))
  }

  /** The parts of the state that fix the keys are the same. */
  ghost predicate SameStatics(s: State, t: State)
    requires Refs(s)
  {
    && t.dials.Keys == s.dials.Keys
    && (forall e | e in s.dials :: SameRole(s.dials[e], t.dials[e]))
    && s.backends.Keys <= t.backends.Keys
    && (forall b | b in s.backends :: t.backends[b].agent == s.backends[b].agent)
    && s.streams.Keys <= t.streams.Keys
    && t.pending <= s.pending
    && t.owners == s.owners
  }

  lemma StaticsKeep(s: State, t: State)
    requires Refs(s) && KeysDistinct(s) && SameStatics(s, t)
    ensures Refs(t) && KeysDistinct(t)
    ensures forall e | e in s.dials :: Known(t, e) && Key(t, e) == Key(s, e)
  {
    forall e | e in s.dials ensures Known(t, e) && Key(t, e) == Key(s, e) { assert Known(s, e); }
  }

  /** A step that leaves `established` alone. */
  lemma EstablishedStays(s: State, t: State)
    requires Shape(s) && SameStatics(s, t) && t.established == s.established
    ensures Refs(t) && KeysDistinct(t) && EstablishedOk(t)
    ensures forall e {:trigger IsEstablished(t, e)} | e in s.dials :: IsEstablished(t, e) == IsEstablished(s, e)
  {
    StaticsKeep(s, t);
    forall e | e in s.dials ensures IsEstablished(t, e) == IsEstablished(s, e) {}
    assert EstablishedOk(t);
  }

  lemma SameView(s: State, t: State, e: DialId)
    requires Known(s, e) && Known(t, e) && t.dials[e] == s.dials[e]
    requires s.dials[e].frontend.Stream? ==> t.streams[s.dials[e].frontend.uid] == s.streams[s.dials[e].frontend.uid]
    requires t.backends[s.dials[e].backend].loop == s.backends[s.dials[e].backend].loop
    requires (e in t.pending) == (e in s.pending) && IsEstablished(t, e) == IsEstablished(s, e)
    ensures ViewOf(t, e) == ViewOf(s, e)
  {}

  lemma SetDialShape(s: State, d: DialId, x: Dial)
    requires Shape(s) && d in s.dials && SameRole(s.dials[d], x)
    ensures Shape(SetDial(s, d, x))
    ensures forall e {:trigger IsEstablished(SetDial(s, d, x), e)} | e in s.dials ::
              IsEstablished(SetDial(s, d, x), e) == IsEstablished(s, e)
  {
    var t := SetDial(s, d, x);
    assert HeldOk(t) && TellingOk(t);
    EstablishedStays(s, t);
  }

  lemma SetDialFrame(s: State, d: DialId, x: Dial)
    requires Shape(s) && d in s.dials
    requires SameRole(s.dials[d], x)
    ensures Becomes(s, SetDial(s, d, x), d, ViewOf(s, d).(x := x))
  {
    var t := SetDial(s, d, x);
    SetDialShape(s, d, x);
    forall e | e in s.dials && e != d ensures ViewOf(t, e) == ViewOf(s, e) { SameView(s, t, e); }
  }

  /** One change of `d` after another. */
  lemma Chain(s: State, m: State, t: State, d: DialId, v: View, w: View)
    requires Refs(s) && Becomes(s, m, d, v) && Becomes(m, t, d, w)
    ensures Becomes(s, t, d, w)
  {
    forall e | e in s.dials && e != d ensures ViewOf(t, e) == ViewOf(s, e) {
      assert ViewOf(m, e) == ViewOf(s, e);
    }
  }

  lemma ThenSetDial(s: State, m: State, d: DialId, v: View, x: Dial)
    requires Shape(s) && Becomes(s, m, d, v) && SameRole(v.x, x)
    ensures Becomes(s, SetDial(m, d, x), d, v.(x := x))
  {
    SetDialFrame(m, d, x);
    Chain(s, m, SetDial(m, d, x), d, v, v.(x := x));
  }

  lemma SetLoopShape(s: State, b: BackendId, l: Loop)
    requires Shape(s) && b in s.backends
    requires forall e | e in Held(l) :: e in s.dials && s.dials[e].backend == b
    ensures Shape(SetLoop(s, b, l))
    ensures forall e {:trigger IsEstablished(SetLoop(s, b, l), e)} | e in s.dials ::
              IsEstablished(SetLoop(s, b, l), e) == IsEstablished(s, e)
  {
    var t := SetLoop(s, b, l);
    assert HeldOk(t) && TellingOk(t);
    EstablishedStays(s, t);
  }

  lemma SetLoopFrame(s: State, b: BackendId, l: Loop, d: DialId)
    requires Shape(s) && b in s.backends && d in s.dials && s.dials[d].backend == b
    requires forall e | e in Held(l) :: e in s.dials && s.dials[e].backend == b
    requires forall e | e != d :: PhaseOf(l, e) == PhaseOf(s.backends[b].loop, e)
    requires Lost(l) == Lost(s.backends[b].loop)
    ensures Becomes(s, SetLoop(s, b, l), d, ViewOf(s, d).(phase := PhaseOf(l, d)))
  {
    SetLoopShape(s, b, l);
    LoopViewIs(s, b, l, d);
    forall e | e in s.dials && e != d ensures ViewOf(SetLoop(s, b, l), e) == ViewOf(s, e) { LoopViewIs(s, b, l, e); }
  }

  lemma UnpendFrame(s: State, d: DialId)
    requires Shape(s) && d in s.dials
    ensures Becomes(s, Unpend(s, d), d, ViewOf(s, d).(pending := false))
  {
    var t := Unpend(s, d);
    assert HeldOk(t) && TellingOk(t);
    EstablishedStays(s, t);
    forall e | e in s.dials && e != d ensures ViewOf(t, e) == ViewOf(s, e) { SameView(s, t, e); }
  }

  lemma EstablishFrame(s: State, d: DialId)
    requires Shape(s) && d in s.dials && s.dials[d].reply.Opened?
    ensures Becomes(s, Enter(s, d), d, ViewOf(s, d).(est := true))
  {
    var t := Enter(s, d);
    assert HeldOk(t) && TellingOk(t);
    StaticsKeep(s, t);
    forall e | e in s.dials ensures IsEstablished(t, e) == (IsEstablished(s, e) || e == d) {}
    assert EstablishedOk(t);
    forall e | e in s.dials && e != d ensures ViewOf(t, e) == ViewOf(s, e) { SameView(s, t, e); }
  }

  lemma UnestablishFrame(s: State, d: DialId)
    requires Shape(s) && d in s.dials && s.dials[d].reply.Opened?
    ensures Becomes(s, Leave(s, d), d, ViewOf(s, d).(est := false))
  {
    var t := Leave(s, d);
    assert HeldOk(t) && TellingOk(t);
    StaticsKeep(s, t);
    forall e | e in s.dials && e != d ensures IsEstablished(t, e) == IsEstablished(s, e) {
      if IsEstablished(s, e) { assert Key(s, e) != Key(s, d); }
    }
    assert !IsEstablished(t, d);
    forall k | k in t.established ensures IsEstablished(t, t.established[k]) && Key(t, t.established[k]) == k {
      assert IsEstablished(s, s.established[k]) && s.established[k] != d;
    }
    forall e | e in s.dials && e != d ensures ViewOf(t, e) == ViewOf(s, e) { SameView(s, t, e); }
  }

  lemma ClaimFrame(s: State, d: DialId, path: Path)
    requires Shape(s) && d in s.dials
    ensures Becomes(s, Claim(s, d, path), d, ClaimView(ViewOf(s, d), path))
  {
    var x := ClaimedBy(s.dials[d], d in s.pending, path);
    var m := SetDial(s, d, x);
    SetDialFrame(s, d, x);
    UnpendFrame(m, d);
    Chain(s, m, Unpend(m, d), d, ViewOf(s, d).(x := x), ClaimView(ViewOf(s, d), path));
  }

  lemma DropFrame(s: State, d: DialId, reason: Reason)
    requires Shape(s) && d in s.dials && s.dials[d].reply.Opened?
    ensures Becomes(s, Drop(s, d, reason), d, DropView(ViewOf(s, d), reason))
  {
    var x := DroppedBy(s.dials[d], IsEstablished(s, d), reason);
    var m := SetDial(s, d, x);
    SetDialFrame(s, d, x);
    UnestablishFrame(m, d);
    Chain(s, m, Leave(m, d), d, ViewOf(s, d).(x := x), DropView(ViewOf(s, d), reason));
  }

  lemma ConnectFrame(s: State, b: BackendId, agent: AgentId)
    requires Shape(s) && b !in s.backends
    ensures var t := s.(backends := s.backends[b := Backend(agent, Idle, false)]);
            Shape(t) && forall e {:trigger ViewOf(t, e)} | e in s.dials :: ViewOf(t, e) == ViewOf(s, e)
  {
    var t := s.(backends := s.backends[b := Backend(agent, Idle, false)]);
    assert HeldOk(t) && TellingOk(t);
    EstablishedStays(s, t);
    forall e | e in s.dials ensures ViewOf(t, e) == ViewOf(s, e) { SameView(s, t, e); }
  }

  lemma OpenStreamFrame(s: State, u: StreamId)
    requires Shape(s) && u !in s.streams
    ensures var t := s.(streams := s.streams[u := Live]);
            Shape(t) && forall e {:trigger ViewOf(t, e)} | e in s.dials :: ViewOf(t, e) == ViewOf(s, e)
  {
    var t := s.(streams := s.streams[u := Live]);
    assert HeldOk(t) && TellingOk(t);
    EstablishedStays(s, t);
    forall e | e in s.dials ensures ViewOf(t, e) == ViewOf(s, e) { SameView(s, t, e); }
  }

  /** A dial begins, pending and otherwise untouched. */
  lemma BeginFrame(s: State, d: DialId, b: BackendId, f: Frontend)
    requires Shape(s) && d !in s.dials && b in s.backends
    requires f.Stream? ==> f.uid in s.streams && s.streams[f.uid].Live?
    ensures var t := SetDial(s, d, NewDial(b, f)).(pending := s.pending + {d});
            && Shape(t)
            && (forall e | e in s.dials :: Known(t, e) && ViewOf(t, e) == ViewOf(s, e))
            && Known(t, d)
            && ViewOf(t, d) == View(NewDial(b, f), true, false, Elsewhere, Lost(s.backends[b].loop),
                                    if f.InProcess? then NoStream else OnLive)
  {
    var t := SetDial(s, d, NewDial(b, f)).(pending := s.pending + {d});
    BeginShape(s, d, b, f);
    forall e | e in s.dials ensures ViewOf(t, e) == ViewOf(s, e) { SameView(s, t, e); }
    assert PhaseOf(s.backends[b].loop, d) == Elsewhere;
  }

  lemma BeginShape(s: State, d: DialId, b: BackendId, f: Frontend)
    requires Shape(s) && d !in s.dials && b in s.backends
    requires f.Stream? ==> f.uid in s.streams && s.streams[f.uid].Live?
    ensures var t := SetDial(s, d, NewDial(b, f)).(pending := s.pending + {d});
            && Shape(t) && !IsEstablished(t, d)
            && forall e {:trigger IsEstablished(t, e)} | e in s.dials :: IsEstablished(t, e) == IsEstablished(s, e)
  {
    var t := SetDial(s, d, NewDial(b, f)).(pending := s.pending + {d});
    assert HeldOk(t) && TellingOk(t);
    assert Refs(t);
    forall e | e in s.dials ensures Key(t, e) == Key(s, e) && IsEstablished(t, e) == IsEstablished(s, e) {}
    assert EstablishedOk(t);
  }

  lemma OpenShape(s: State, d: DialId, conn: ConnId)
    requires Shape(s) && d in s.dials && s.dials[d].reply.Unanswered? && OpenStep(s, d, conn) != s
    ensures var t := OpenStep(s, d, conn);
            && Shape(t) && !IsEstablished(t, d)
            && forall e {:trigger IsEstablished(t, e)} | e in s.dials && e != d ::
                 IsEstablished(t, e) == IsEstablished(s, e)
  {
    var t := OpenStep(s, d, conn);
    assert HeldOk(t) && TellingOk(t);
    assert Refs(t);
    forall e | e in s.dials && e != d ensures Key(t, e) == Key(s, e) && IsEstablished(t, e) == IsEstablished(s, e) {}
    assert KeysDistinct(t);
    assert !IsEstablished(t, d);
    assert EstablishedOk(t);
  }

  lemma OpenFrame(s: State, d: DialId, conn: ConnId)
    requires Shape(s) && d in s.dials && s.dials[d].reply.Unanswered? && OpenStep(s, d, conn) != s
    ensures Becomes(s, OpenStep(s, d, conn), d, ViewOf(s, d).(x := s.dials[d].(reply := Opened(conn))))
  {
    var t := OpenStep(s, d, conn);
    OpenShape(s, d, conn);
    forall e | e in s.dials && e != d ensures ViewOf(t, e) == ViewOf(s, e) { SameView(s, t, e); }
  }

  /** A step that rewrites the record of `d` and moves the loop of its backend,
      which holds at most `d` before and after. */
  lemma MoveFrame(s: State, b: BackendId, d: DialId, x: Dial, l: Loop)
    requires Shape(s) && d in s.dials && s.dials[d].backend == b
    requires x.backend == b && x.frontend == s.dials[d].frontend && x.reply == s.dials[d].reply
    requires Held(l) <= {d} && Held(s.backends[b].loop) <= {d} && !Lost(l) && !Lost(s.backends[b].loop)
    ensures Becomes(s, SetLoop(SetDial(s, d, x), b, l), d, ViewOf(s, d).(x := x, phase := PhaseOf(l, d)))
  {
    SetDialFrame(s, d, x);
    ThenLoop(s, SetDial(s, d, x), b, l, d, ViewOf(s, d).(x := x));
  }

  /** The same for a loop that is working through a set of dials. */
  lemma MoveSetFrame(s: State, b: BackendId, d: DialId, x: Dial, l: Loop)
    requires Shape(s) && d in s.dials && s.dials[d].backend == b
    requires x.backend == b && x.frontend == s.dials[d].frontend && x.reply == s.dials[d].reply
    requires var k := s.backends[b].loop;
             || (k.LosingDials? && l == LosingDials(k.dials - {d}))
             || (k.LosingConns? && l == LosingConns(k.dials - {d}))
    ensures Becomes(s, SetLoop(SetDial(s, d, x), b, l), d, ViewOf(s, d).(x := x, phase := Elsewhere))
  {
    var m, v := SetDial(s, d, x), ViewOf(s, d).(x := x);
    OneLess(s.backends[b].loop, l, d);
    SetDialFrame(s, d, x);
    HeldIsOver(m, b, l);
    SetLoopFrame(m, b, l, d);
    Chain(s, m, SetLoop(m, b, l), d, v, v.(phase := Elsewhere));
  }

  /** A loop is done with `d`, one of the dials it works through. */
  lemma OneLess(k: Loop, l: Loop, d: DialId)
    requires (k.LosingDials? && l == LosingDials(k.dials - {d})) || (k.LosingConns? && l == LosingConns(k.dials - {d}))
    ensures Held(l) <= Held(k) && Lost(l) == Lost(k) && PhaseOf(l, d) == Elsewhere
    ensures forall e {:trigger PhaseOf(l, e)} | e != d :: PhaseOf(l, e) == PhaseOf(k, e)
  {}

  lemma HeldIsOver(s: State, b: BackendId, l: Loop)
    requires Shape(s) && b in s.backends && Held(l) <= Held(s.backends[b].loop)
    ensures forall e | e in Held(l) :: e in s.dials && s.dials[e].backend == b
  {}

  /** A step that makes `d` look like `v`, and then the loop moves. */
  lemma ThenLoop(s: State, m: State, b: BackendId, l: Loop, d: DialId, v: View)
    requires Shape(s) && Becomes(s, m, d, v) && b in m.backends && m.dials[d].backend == b
    requires Held(l) <= {d} && Held(m.backends[b].loop) <= {d} && !Lost(l) && !Lost(m.backends[b].loop)
    ensures Becomes(s, SetLoop(m, b, l), d, v.(phase := PhaseOf(l, d)))
  {
    forall e | e != d ensures PhaseOf(l, e) == PhaseOf(m.backends[b].loop, e) {}
    SetLoopFrame(m, b, l, d);
    Chain(s, m, SetLoop(m, b, l), d, v, v.(phase := PhaseOf(l, d)));
  }

  // ----- The protocol as seen by one dial -----

  function ClaimView(v: View, path: Path): View {
    v.(x := ClaimedBy(v.x, v.pending, path), pending := false)
  }

  function DropView(v: View, r: Reason): View {
    v.(x := DroppedBy(v.x, v.est, r), est := false)
  }

  function TakeView(v: View, d: DialId): View {
    var w := ClaimView(v, PathOf(v.x.reply));
    w.(x := w.x.(handled := true), phase := PhaseOf(Taken(d, v.x.reply, v.pending), d))
  }

  function AgentCloseView(v: View, d: DialId): View {
    var w := DropView(v, CloseResponse);
    w.(x := w.x.(agentClosed := true), phase := PhaseOf(AfterClose(d, v.est), d))
  }

  function HeldView(v: View, op: HeldOp): View {
    match op
    case Establish =>
      if v.phase.InClaimed? && v.x.reply.Opened?
      then v.(x := EnteredAs(v.x, v.shore.OnTelling? || v.shore.OnGone?), est := true, phase := InAdded) else v
    case Respond(ok) =>
      if v.phase.InAdded? && v.x.reply.Opened? then
        if (if v.x.frontend.InProcess? then !v.x.closed else ok)
        then v.(x := Accepted(v.x), phase := Elsewhere) else v.(x := RefusedBy(v.x), phase := InRejected)
      else v
    case DropRejected => if v.phase.InRejected? then DropView(v, SendResponse).(phase := InAsking) else v
    case AskClose => if v.phase.InAsking? then v.(x := Asked(v.x), phase := Elsewhere) else v
    case Forward(ok) => if v.phase.InForwarding? then v.(x := Told(v.x, v.phase.outcome, ok), phase := Elsewhere) else v
    case ForwardClose => if v.phase.InForwardingClose? then v.(x := ClosedByAgent(v.x), phase := Elsewhere) else v
    case NotifyLost(ok) => if v.phase.InLosingDials? then v.(x := Told(v.x, DialFailed, ok), phase := Elsewhere) else v
    case NotifyClosed => if v.phase.InLosingConns? then v.(x := ClosedByAgent(v.x), phase := Elsewhere) else v
  }

  function DialerView(v: View, op: DialerOp, contextDone: bool): View {
    var x := v.x;
    match op
    case ReturnConn => if x.caller.Dialing? && x.connID != 0 then v.(x := x.(caller := Connected)) else v
    case ReturnError =>
      if x.caller.Dialing? && (Answer(DialFailed, true) in x.answers || Answer(DialCancelled, true) in x.answers)
      then v.(x := x.(caller := Failed)) else v
    case GiveUp =>
      if x.caller.Dialing? then
        var w := ClaimView(v, Dialer);
        w.(x := w.x.(caller := Failed))
      else v
    case StartClose =>
      if x.closer.NotClosed? && (!x.caller.Dialing? || (x.added && contextDone))
      then v.(x := x.(closed := true, closer := Marked(x.connID))) else v
    case RemoveOnClose =>
      if x.closer == Marked(0) then
        var w := ClaimView(v, Dialer);
        w.(x := w.x.(closer := Finished))
      else if x.closer.Marked? then
        var w := DropView(v, FrontendClose);
        w.(x := w.x.(closer := if v.est then Removed else Finished))
      else v
    case AskOnClose => if x.closer.Removed? then v.(x := Asked(x).(closer := Finished)) else v
  }

  function NoticeView(v: View, path: Path): View {
    var w := ClaimView(v, path);
    w.(x := w.x.(notice := true))
  }

  function StreamDialView(v: View, op: StreamDialOp): View {
    match op
    case CancelDial => if v.shore.OnLive? then ClaimView(v, FrontendCancel) else v
    case FailSend => if v.shore.OnLive? && v.pending then NoticeView(v, SendFailure) else v
    case TimeOut => if v.pending then NoticeView(v, Timeout) else v
    case SendNotice(ok) =>
      if v.x.notice then v.(x := Told(v.x, DialFailed, ok).(notice := false)) else v
    case PassOnClose => if v.shore.OnLive? && WasAccepted(v.x) then v.(x := AskedByClient(v.x)) else v
  }

  lemma TakenFacts(d: DialId, reply: Reply, wasPending: bool)
    ensures Held(Taken(d, reply, wasPending)) <= {d} && !Lost(Taken(d, reply, wasPending))
  {}

  lemma TakeInView(s: State, d: DialId)
    requires Shape(s) && d in s.dials && s.backends[s.dials[d].backend].loop.Idle?
    ensures Becomes(s, TakeStep(s, d), d, TakeView(ViewOf(s, d), d))
  {
    var x := s.dials[d];
    var t := Claim(s, d, PathOf(x.reply));
    ClaimFrame(s, d, PathOf(x.reply));
    TakenFacts(d, x.reply, d in s.pending);
    MoveFrame(t, x.backend, d, t.dials[d].(handled := true), Taken(d, x.reply, d in s.pending));
  }

  lemma AgentCloseInView(s: State, d: DialId)
    requires Shape(s) && d in s.dials && s.backends[s.dials[d].backend].loop.Idle? && s.dials[d].reply.Opened?
    ensures Becomes(s, AgentCloseStep(s, d), d, AgentCloseView(ViewOf(s, d), d))
  {
    var t := Drop(s, d, CloseResponse);
    DropFrame(s, d, CloseResponse);
    MoveFrame(t, s.dials[d].backend, d, t.dials[d].(agentClosed := true), AfterClose(d, IsEstablished(s, d)));
  }

  lemma PhaseFacts(l: Loop, d: DialId)
    ensures PhaseOf(l, d).InClaimed? <==> l == Claimed(d)
    ensures PhaseOf(l, d).InAdded? <==> l == Added(d)
    ensures PhaseOf(l, d).InRejected? <==> l == Rejected(d)
    ensures PhaseOf(l, d).InAsking? <==> l == Asking(d)
    ensures PhaseOf(l, d).InForwarding? <==> l.Forwarding? && l.dial == d
    ensures PhaseOf(l, d).InForwarding? ==> PhaseOf(l, d).outcome == l.outcome
    ensures PhaseOf(l, d).InForwardingClose? <==> l == ForwardingClose(d)
    ensures PhaseOf(l, d).InLosingDials? <==> l.LosingDials? && d in l.dials
    ensures PhaseOf(l, d).InLosingConns? <==> l.LosingConns? && d in l.dials
  {}

  lemma EnteredInView(s: State, d: DialId)
    requires Shape(s) && d in s.dials && s.dials[d].reply.Opened?
    ensures var x := EnteredAs(s.dials[d], CleanedUp(s, d));
            Becomes(s, Enter(SetDial(s, d, x), d), d, ViewOf(s, d).(x := x, est := true))
  {
    var x := EnteredAs(s.dials[d], CleanedUp(s, d));
    SetDialFrame(s, d, x);
    EstablishFrame(SetDial(s, d, x), d);
  }

  lemma EstablishInView(s: State, b: BackendId, d: DialId)
    requires Shape(s) && d in s.dials && s.dials[d].backend == b
    requires s.backends[b].loop == Claimed(d) && s.dials[d].reply.Opened?
    ensures Becomes(s, HeldStep(s, b, d, Establish), d, HeldView(ViewOf(s, d), Establish))
  {
    var x := EnteredAs(s.dials[d], CleanedUp(s, d));
    var m := Enter(SetDial(s, d, x), d);
    PhaseFacts(s.backends[b].loop, d);
    assert HeldView(ViewOf(s, d), Establish) == ViewOf(s, d).(x := x, est := true, phase := InAdded);
    assert HeldStep(s, b, d, Establish) == SetLoop(m, b, Added(d));
    EnteredInView(s, d);
    ThenLoop(s, m, b, Added(d), d, ViewOf(s, d).(x := x, est := true));
  }

  lemma DropRejectedInView(s: State, b: BackendId, d: DialId)
    requires Shape(s) && d in s.dials && s.dials[d].backend == b && s.dials[d].reply.Opened?
    requires s.backends[b].loop == Rejected(d)
    ensures Becomes(s, HeldStep(s, b, d, DropRejected), d, HeldView(ViewOf(s, d), DropRejected))
  {
    var m := Drop(s, d, SendResponse);
    DropFrame(s, d, SendResponse);
    ThenLoop(s, m, b, Asking(d), d, DropView(ViewOf(s, d), SendResponse));
    assert HeldStep(s, b, d, DropRejected) == SetLoop(m, b, Asking(d));
  }

  lemma CloseConnectedInView(s: State, d: DialId)
    requires Shape(s) && d in s.dials && s.dials[d].frontend.InProcess? && s.dials[d].reply.Opened?
    requires s.dials[d].closer.Marked? && s.dials[d].closer.conn != 0
    ensures Becomes(s, DialerStep(s, d, RemoveOnClose), d, DialerView(ViewOf(s, d), RemoveOnClose, false))
  {
    var v := DropView(ViewOf(s, d), FrontendClose);
    var x := v.x.(closer := if IsEstablished(s, d) then Removed else Finished);
    CloseConnectedFacts(s, d, x);
    DropFrame(s, d, FrontendClose);
    ThenSetDial(s, Drop(s, d, FrontendClose), d, v, x);
  }

  lemma CloseConnectedFacts(s: State, d: DialId, x: Dial)
    requires Known(s, d) && s.dials[d].frontend.InProcess? && s.dials[d].closer.Marked? && s.dials[d].closer.conn != 0
    requires x == DroppedBy(s.dials[d], IsEstablished(s, d), FrontendClose).(
                    closer := if IsEstablished(s, d) then Removed else Finished)
    ensures DialerStep(s, d, RemoveOnClose) == SetDial(Drop(s, d, FrontendClose), d, x)
    ensures DialerView(ViewOf(s, d), RemoveOnClose, false) == DropView(ViewOf(s, d), FrontendClose).(x := x)
  {}

  lemma CountFrame(s: State, d: DialId, r: Reason)
    requires Shape(s) && d in s.dials
    ensures Becomes(s, CountStep(s, d, r), d, ViewOf(s, d).(x := s.dials[d].(counted := true)))
  {
    var t := SetDial(s, d, s.dials[d].(counted := true));
    SetDialFrame(s, d, s.dials[d].(counted := true));
    var t' := CountStep(s, d, r);
    assert HeldOk(t') && TellingOk(t');
    StaticsKeep(t, t');
    forall e | e in s.dials ensures IsEstablished(t', e) == IsEstablished(t, e) {}
    assert EstablishedOk(t');
    forall e | e in s.dials ensures ViewOf(t', e) == ViewOf(t, e) { SameView(t, t', e); }
  }

  // ----- Steps that touch many dials -----

  lemma ClaimAllShape(s: State, ds: set<DialId>, path: Path)
    requires Shape(s)
    ensures Shape(ClaimAll(s, ds, path))
    ensures forall e {:trigger IsEstablished(ClaimAll(s, ds, path), e)} | e in s.dials ::
              IsEstablished(ClaimAll(s, ds, path), e) == IsEstablished(s, e)
  {
    var t := ClaimAll(s, ds, path);
    assert HeldOk(t) && TellingOk(t);
    EstablishedStays(s, t);
  }

  lemma ClaimAllView(s: State, ds: set<DialId>, path: Path, e: DialId)
    requires Known(s, e) && ds <= s.pending
    ensures var t := ClaimAll(s, ds, path);
            Known(t, e) && ViewOf(t, e) == if e in ds then ClaimView(ViewOf(s, e), path) else ViewOf(s, e)
  {
    var t := ClaimAll(s, ds, path);
    assert Key(t, e) == Key(s, e) && IsEstablished(t, e) == IsEstablished(s, e);
    assert ShoreOf(t, e) == ShoreOf(s, e);
  }

  lemma ClaimAllFrame(s: State, ds: set<DialId>, path: Path)
    requires Shape(s) && ds <= s.pending
    ensures var t := ClaimAll(s, ds, path);
            && Shape(t) && t.dials.Keys == s.dials.Keys
            && forall e {:trigger ViewOf(t, e)} | e in s.dials ::
                 ViewOf(t, e) == if e in ds then ClaimView(ViewOf(s, e), path) else ViewOf(s, e)
  {
    var t := ClaimAll(s, ds, path);
    ClaimAllShape(s, ds, path);
    forall e | e in s.dials ensures ViewOf(t, e) == if e in ds then ClaimView(ViewOf(s, e), path) else ViewOf(s, e) {
      ClaimAllView(s, ds, path, e);
    }
  }

  lemma DropAllEstablished(s: State, ds: set<DialId>, reason: Reason)
    requires Shape(s) && forall d | d in ds :: IsEstablished(s, d)
    ensures var t := DropAll(s, ds, reason);
            && Refs(t) && KeysDistinct(t)
            && (forall e | e in s.dials :: Key(t, e) == Key(s, e))
            && forall e {:trigger IsEstablished(t, e)} | e in s.dials ::
                 IsEstablished(t, e) == (IsEstablished(s, e) && e !in ds)
  {
    var t := DropAll(s, ds, reason);
    StaticsKeep(s, t);
    forall e | e in s.dials ensures IsEstablished(t, e) == (IsEstablished(s, e) && e !in ds) {}
  }

  lemma DropAllShape(s: State, ds: set<DialId>, reason: Reason)
    requires Shape(s) && forall d | d in ds :: IsEstablished(s, d)
    ensures var t := DropAll(s, ds, reason);
            && Shape(t)
            && forall e {:trigger IsEstablished(t, e)} | e in s.dials ::
                 IsEstablished(t, e) == (IsEstablished(s, e) && e !in ds)
  {
    var t := DropAll(s, ds, reason);
    assert HeldOk(t) && TellingOk(t);
    DropAllEstablished(s, ds, reason);
    forall k | k in t.established ensures IsEstablished(t, t.established[k]) && Key(t, t.established[k]) == k {
      assert IsEstablished(s, s.established[k]);
    }
  }

  lemma DropAllView(s: State, ds: set<DialId>, reason: Reason, e: DialId)
    requires Known(s, e) && forall d | d in ds :: IsEstablished(s, d)
    ensures var t := DropAll(s, ds, reason);
            Known(t, e) && ViewOf(t, e) == if e in ds then DropView(ViewOf(s, e), reason) else ViewOf(s, e)
  {
    var t := DropAll(s, ds, reason);
    assert Key(t, e) == Key(s, e) && IsEstablished(t, e) == (IsEstablished(s, e) && e !in ds);
    assert ShoreOf(t, e) == ShoreOf(s, e);
  }

  lemma DropAllFrame(s: State, ds: set<DialId>, reason: Reason)
    requires Shape(s) && forall d | d in ds :: IsEstablished(s, d)
    ensures var t := DropAll(s, ds, reason);
            && Shape(t) && t.dials.Keys == s.dials.Keys
            && forall e {:trigger ViewOf(t, e)} | e in s.dials ::
                 ViewOf(t, e) == if e in ds then DropView(ViewOf(s, e), reason) else ViewOf(s, e)
  {
    var t := DropAll(s, ds, reason);
    DropAllShape(s, ds, reason);
    forall e | e in s.dials ensures ViewOf(t, e) == if e in ds then DropView(ViewOf(s, e), reason) else ViewOf(s, e) {
      DropAllView(s, ds, reason, e);
    }
  }

  function LoopView(v: View, b: BackendId, l: Loop, e: DialId): View {
    if v.x.backend == b then v.(phase := PhaseOf(l, e), lost := Lost(l)) else v
  }

  lemma LoopViewIs(s: State, b: BackendId, l: Loop, e: DialId)
    requires b in s.backends && Known(s, e)
    ensures Known(SetLoop(s, b, l), e) && ViewOf(SetLoop(s, b, l), e) == LoopView(ViewOf(s, e), b, l, e)
  {
    var t := SetLoop(s, b, l);
    assert Key(t, e) == Key(s, e) && IsEstablished(t, e) == IsEstablished(s, e);
    assert ShoreOf(t, e) == ShoreOf(s, e);
  }

  lemma LoopFrame(s: State, b: BackendId, l: Loop)
    requires Shape(s) && b in s.backends
    requires forall e | e in Held(l) :: e in s.dials && s.dials[e].backend == b
    ensures var t := SetLoop(s, b, l);
            && Shape(t) && t.dials == s.dials
            && forall e {:trigger ViewOf(t, e)} | e in s.dials :: ViewOf(t, e) == LoopView(ViewOf(s, e), b, l, e)
  {
    SetLoopShape(s, b, l);
    forall e | e in s.dials ensures ViewOf(SetLoop(s, b, l), e) == LoopView(ViewOf(s, e), b, l, e) {
      LoopViewIs(s, b, l, e);
    }
  }

  function CleanupView(v: View, u: StreamId, c: Cleanup, e: DialId): View {
    if v.x.frontend != Stream(u) then v
    else v.(shore := match c
                     case Live => OnLive
                     case DialsCleaned => OnDialsCleaned
                     case Telling(ds) => OnTelling(e in ds)
                     case Gone => OnGone)
  }

  lemma CleanupFrame(s: State, u: StreamId, c: Cleanup)
    requires Shape(s) && u in s.streams
    requires c.Telling? ==> forall d | d in c.dials :: d in s.dials && s.dials[d].frontend == Stream(u)
    ensures var t := s.(streams := s.streams[u := c]);
            && Shape(t) && t.dials == s.dials
            && forall e {:trigger ViewOf(t, e)} | e in s.dials :: ViewOf(t, e) == CleanupView(ViewOf(s, e), u, c, e)
  {
    var t := s.(streams := s.streams[u := c]);
    assert HeldOk(t) && TellingOk(t);
    EstablishedStays(s, t);
    forall e | e in s.dials && s.dials[e].frontend != Stream(u) ensures ViewOf(t, e) == ViewOf(s, e) {
      SameView(s, t, e);
    }
  }
}
