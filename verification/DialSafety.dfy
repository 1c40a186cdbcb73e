/** The theorems about the dial protocol, over all runs. */
module DialSafety {
  import opened Options
  import opened Runs
  import opened DialProtocol
  import opened DialProofs
  import opened DialSteps

  // ----- The theorems -----

  /** At most one path claims a dial, and the server sends its frontend at most one
      answer to the DIAL_REQ, whether or not the send succeeds, so never a failure after
      a success. A success is always the agent's own DIAL_RSP, taken by the receive
      loop. */
  lemma OneAnswerPerDial(actions: seq<Action>, d: DialId)
    requires d in Run(Step, INITIAL, actions).dials
    ensures var s := Run(Step, INITIAL, actions);
            var x := s.dials[d];
            && |x.claims| == (if d in s.pending then 0 else 1)
            && |x.answers| <= 1
            && (x.answers != [] ==> d !in s.pending)
            && (x.answers != [] && x.answers[0].outcome.DialSucceeded? ==>
                  x.claims == [Response] && x.reply == Opened(x.answers[0].outcome.conn))
  {
    Always(actions);
    assert DialInv(ViewOf(Run(Step, INITIAL, actions), d));
  }

  /** The receive loop is not in the middle of handling the agent's answer. */
  predicate HandlerDone(s: State, d: DialId)
    requires Known(s, d)
  {
    s.dials[d].handled && !InHand(ViewOf(s, d).phase)
  }

  /** The agent ended the connection, or its own connection ended. */
  predicate EndedByAgent(x: Dial) { x.removed == Some(CloseResponse) || x.removed == Some(BackendClose) }

  /** However the DIAL_RSP handler interleaves with a dialer that gives up or closes:
      once both are done the connection is in neither map, and the agent has been asked
      to close it exactly once if and only if the agent had not ended it, and not at all
      otherwise. At no time has it been asked more than once; requests that answer late
      DATA come on top. */
  lemma ClosedExactlyOnce(actions: seq<Action>, d: DialId)
    requires d in Run(Step, INITIAL, actions).dials && Run(Step, INITIAL, actions).dials[d].frontend.InProcess?
    ensures var s := Run(Step, INITIAL, actions);
            var x := s.dials[d];
            && Known(s, d)
            && 0 <= x.asks.total - x.asks.late <= 1
            && (x.reply.Opened? && HandlerDone(s, d) && x.closer.Finished? ==>
                  && d !in s.pending && Key(s, d) !in s.established
                  && x.asks.total - x.asks.late == (if EndedByAgent(x) then 0 else 1))
  {
    Always(actions);
    var s := Run(Step, INITIAL, actions);
    assert DialInv(ViewOf(s, d));
  }

  /** When a frontend stream is gone and the handler is done with a dial of it: the server
      itself has asked the agent to close the connection once if the stream refused the
      DIAL_RSP and once if the cleanup removed the connection. Unless the agent ended the
      connection, it is left in `established`, and the server has not asked, if and only
      if it was added after the cleanup had looked for connections and the DIAL_RSP was
      taken all the same. */
  lemma LeakAfterShutdown(actions: seq<Action>, d: DialId)
    requires var s := Run(Step, INITIAL, actions);
             && d in s.dials && Known(s, d) && s.dials[d].frontend.Stream?
             && s.streams[s.dials[d].frontend.uid].Gone?
             && s.dials[d].reply.Opened? && HandlerDone(s, d)
    ensures var s := Run(Step, INITIAL, actions);
            var x := s.dials[d];
            && d !in s.pending
            && OwnAsks(x) == (if WasAccepted(x) then 0 else 1) + (if x.removed == Some(FrontendClose) then 1 else 0)
            && (EndedByAgent(x) ==> Key(s, d) !in s.established)
            && (!EndedByAgent(x) ==> (Key(s, d) in s.established <==> x.addedLate && WasAccepted(x)))
            && (!EndedByAgent(x) ==> (OwnAsks(x) == 0 <==> x.addedLate && WasAccepted(x)))
  {
    Always(actions);
    var s := Run(Step, INITIAL, actions);
    assert DialInv(ViewOf(s, d));
    match s.dials[d].removed
    case None =>
    case Some(FrontendClose) =>
    case Some(SendResponse) =>
    case Some(CloseResponse) =>
    case Some(BackendClose) =>
  }

  // ----- Runs that show what can happen -----

  /** A dial of the stream 0 whose answer the receive loop has, the agent not having been
      asked for anything and not having closed anything. */
  ghost predicate AnsweredOnStream(s: State, l: Loop, c: Cleanup) {
    && Known(s, 0) && s.dials[0].backend == 0 && s.dials[0].frontend == Stream(0) && s.dials[0].reply == Opened(1)
    && s.dials.Keys == {0} && s.pending == {} && s.streams[0] == c && s.backends[0].loop == l
    && s.dials[0].handled && s.dials[0].asks == Requests(0, 0, 0)
    && s.dials[0].removed.None? && s.dials[0].answers == []
  }

  lemma ClaimedOnStream() returns (actions: seq<Action>, s: State)
    ensures s == Run(Step, INITIAL, actions) && AnsweredOnStream(s, Claimed(0), Live)
  {
    actions, s := Then([], INITIAL, Connect(0, 0));
    actions, s := Then(actions, s, OpenStream(0));
    actions, s := Then(actions, s, BeginStream(0, 0, 0));
    actions, s := Then(actions, s, AgentAnswers(0, Opened(1)));
    assert s.dials[0].reply == Opened(1) && s.pending == {0};
    actions, s := Then(actions, s, TakeAnswer(0));
  }

  lemma AddedOnStream() returns (actions: seq<Action>, s: State)
    ensures s == Run(Step, INITIAL, actions) && AnsweredOnStream(s, Added(0), Live) && IsEstablished(s, 0)
  {
    actions, s := ClaimedOnStream();
    actions, s := Then(actions, s, OnHeld(0, 0, Establish));
  }

  lemma ShutDownWhenAdded() returns (actions: seq<Action>, s: State)
    ensures s == Run(Step, INITIAL, actions) && AnsweredOnStream(s, Added(0), DialsCleaned) && IsEstablished(s, 0)
  {
    actions, s := AddedOnStream();
    actions, s := Then(actions, s, ByStream(0, Shutdown));
  }

  /** The stream's cleanup has taken the connection and asked the agent to close it. */
  lemma CleanedBeforeResponse() returns (actions: seq<Action>, s: State)
    ensures s == Run(Step, INITIAL, actions)
    ensures Known(s, 0) && s.dials[0].frontend == Stream(0) && s.dials[0].backend == 0 && s.dials[0].reply.Opened?
    ensures s.dials[0].asks == Requests(1, 0, 0) && s.backends[0].loop == Added(0)
  {
    actions, s := ShutDownWhenAdded();
    actions, s := Then(actions, s, ByStream(0, CleanConns));
    assert s.streams[0] == Telling({0}) && s.dials[0].asks == Requests(0, 0, 0);
    actions, s := Then(actions, s, ByStream(0, TellShutdown(0)));
  }

  lemma RefusedOnStream() returns (actions: seq<Action>, s: State)
    ensures s == Run(Step, INITIAL, actions)
    ensures Known(s, 0) && s.dials[0].backend == 0 && s.dials[0].asks == Requests(1, 0, 0)
            && s.backends[0].loop == Rejected(0)
  {
    actions, s := CleanedBeforeResponse();
    actions, s := Then(actions, s, OnHeld(0, 0, Respond(false)));
  }

  /** removeEstablished asks the agent for nothing. */
  lemma DropAsksNothing(s: State, d: DialId, r: Reason)
    requires Known(s, d)
    ensures var m := Drop(s, d, r);
            && m.backends == s.backends && m.streams == s.streams && d in m.dials
            && m.dials[d].backend == s.dials[d].backend && m.dials[d].frontend == s.dials[d].frontend
            && m.dials[d].asks == s.dials[d].asks
  {}

  lemma RefusedAfterCleaning() returns (actions: seq<Action>, s: State)
    ensures s == Run(Step, INITIAL, actions)
    ensures Known(s, 0) && s.dials[0].backend == 0 && s.dials[0].asks == Requests(1, 0, 0)
            && s.backends[0].loop == Asking(0)
  {
    actions, s := RefusedOnStream();
    DropAsksNothing(s, 0, SendResponse);
    assert HeldStep(s, 0, 0, DropRejected) == SetLoop(Drop(s, 0, SendResponse), 0, Asking(0));
    actions, s := Then(actions, s, OnHeld(0, 0, DropRejected));
  }

  /** A stream's connection can be asked for twice: the cleanup removes it between
      addEstablished and the refused DIAL_RSP, and both then send a CLOSE_REQ. */
  lemma StreamAskedTwice() returns (actions: seq<Action>)
    ensures var s := Run(Step, INITIAL, actions); 0 in s.dials && s.dials[0].asks == Requests(2, 0, 0)
  {
    var s;
    actions, s := RefusedAfterCleaning();
    actions, s := Then(actions, s, OnHeld(0, 0, AskClose));
  }

  lemma ShutDownWhenClaimed() returns (actions: seq<Action>, s: State)
    ensures s == Run(Step, INITIAL, actions) && AnsweredOnStream(s, Claimed(0), DialsCleaned) && !IsEstablished(s, 0)
  {
    actions, s := ClaimedOnStream();
    Always(actions);
    assert DialInv(ViewOf(s, 0));
    actions, s := Then(actions, s, ByStream(0, Shutdown));
    Always(actions);
    assert DialInv(ViewOf(s, 0));
  }

  lemma GoneWhenClaimed() returns (actions: seq<Action>, s: State)
    ensures s == Run(Step, INITIAL, actions) && AnsweredOnStream(s, Claimed(0), Gone)
  {
    actions, s := ShutDownWhenClaimed();
    assert EstablishedOn(s, 0) == {};
    actions, s := Then(actions, s, ByStream(0, CleanConns));
    assert AnsweredOnStream(s, Claimed(0), Telling({}));
    actions, s := Then(actions, s, ByStream(0, FinishShutdown));
  }

  /** A stream's connection can be left behind: the cleanup runs between the claim and
      addEstablished, and the DIAL_RSP is taken after it. The agent is not asked. */
  lemma StreamConnectionLeaks() returns (actions: seq<Action>)
    ensures var s := Run(Step, INITIAL, actions);
            && Known(s, 0) && s.dials[0].frontend == Stream(0) && s.streams[0].Gone? && HandlerDone(s, 0)
            && IsEstablished(s, 0) && s.dials[0].asks == Requests(0, 0, 0)
  {
    var s;
    actions, s := GoneWhenClaimed();
    actions, s := Then(actions, s, OnHeld(0, 0, Establish));
    assert AnsweredOnStream(s, Added(0), Gone) && IsEstablished(s, 0);
    actions, s := Then(actions, s, OnHeld(0, 0, Respond(true)));
  }

  /** A dial by dialBackend whose answer the receive loop has, the agent not having been
      asked for anything and not having closed anything. */
  ghost predicate Answered(s: State, l: Loop) {
    && Known(s, 0) && s.dials[0].backend == 0 && s.dials[0].frontend.InProcess? && s.dials[0].reply == Opened(1)
    && s.dials[0].handled && s.dials[0].connID == 0 && s.dials[0].asks == Requests(0, 0, 0) && !s.dials[0].agentClosed
    && s.backends[0].loop == l
  }

  lemma ClaimedInProcess() returns (actions: seq<Action>, s: State)
    ensures s == Run(Step, INITIAL, actions) && Answered(s, Claimed(0))
    ensures s.dials[0].caller.Dialing? && s.dials[0].closer.NotClosed?
  {
    actions, s := Then([], INITIAL, Connect(0, 0));
    actions, s := Then(actions, s, BeginInProcess(0, 0));
    actions, s := Then(actions, s, AgentAnswers(0, Opened(1)));
    actions, s := Then(actions, s, TakeAnswer(0));
  }

  lemma GivenUpByDialer() returns (actions: seq<Action>, s: State)
    ensures s == Run(Step, INITIAL, actions) && Answered(s, Claimed(0))
    ensures s.dials[0].caller.Failed? && s.dials[0].closer.NotClosed?
  {
    actions, s := ClaimedInProcess();
    actions, s := Then(actions, s, ByDialer(0, GiveUp));
  }

  lemma MarkedAfterClaim() returns (actions: seq<Action>, s: State)
    ensures s == Run(Step, INITIAL, actions) && Answered(s, Claimed(0))
    ensures s.dials[0].closed && s.dials[0].closer == Marked(0)
  {
    actions, s := GivenUpByDialer();
    actions, s := Then(actions, s, ByDialer(0, StartClose));
  }

  /** The dialer gives up and closes after the receive loop has claimed the dial. */
  lemma GivenUpAfterClaim() returns (actions: seq<Action>, s: State)
    ensures s == Run(Step, INITIAL, actions) && Answered(s, Claimed(0))
    ensures s.dials[0].closed && s.dials[0].closer.Finished?
  {
    actions, s := MarkedAfterClaim();
    actions, s := Then(actions, s, ByDialer(0, RemoveOnClose));
  }

  lemma RefusedByClosedConn() returns (actions: seq<Action>, s: State)
    ensures s == Run(Step, INITIAL, actions) && Answered(s, Rejected(0)) && s.dials[0].closer.Finished?
  {
    actions, s := GivenUpAfterClaim();
    actions, s := Then(actions, s, OnHeld(0, 0, Establish));
    assert Answered(s, Added(0)) && s.dials[0].closed && s.dials[0].closer.Finished?;
    actions, s := Then(actions, s, OnHeld(0, 0, Respond(true)));
  }

  lemma DroppedByHandler() returns (actions: seq<Action>, s: State)
    ensures s == Run(Step, INITIAL, actions) && Answered(s, Asking(0)) && s.dials[0].closer.Finished?
  {
    actions, s := RefusedByClosedConn();
    actions, s := Then(actions, s, OnHeld(0, 0, DropRejected));
  }

  /** The race between a dialer that gives up and the DIAL_RSP handler does end as
      ClosedExactlyOnce says: here with one CLOSE_REQ by the handler. */
  lemma GivenUpIsStillClosed() returns (actions: seq<Action>, s: State)
    ensures s == Run(Step, INITIAL, actions)
    ensures Known(s, 0) && HandlerDone(s, 0) && s.dials[0].frontend.InProcess? && s.dials[0].reply.Opened?
    ensures s.dials[0].closer.Finished? && s.dials[0].asks == Requests(1, 0, 0)
    ensures !s.dials[0].agentClosed && s.backends[s.dials[0].backend].loop.Idle?
  {
    actions, s := DroppedByHandler();
    actions, s := Then(actions, s, OnHeld(0, 0, AskClose));
  }

  /** DATA that the agent sent before it was asked makes the server ask again. */
  lemma InProcessAskedTwice() returns (actions: seq<Action>)
    ensures var s := Run(Step, INITIAL, actions);
            && Known(s, 0) && s.dials[0].frontend.InProcess? && HandlerDone(s, 0) && s.dials[0].closer.Finished?
            && s.dials[0].asks == Requests(2, 1, 0)
  {
    var s;
    actions, s := GivenUpIsStillClosed();
    Always(actions);
    assert DialInv(ViewOf(s, 0));
    actions, s := Then(actions, s, AgentSends(0));
  }

  lemma Then(before: seq<Action>, s: State, a: Action) returns (actions: seq<Action>, t: State)
    requires s == Run(Step, INITIAL, before)
    ensures actions == before + [a] && t == Step(s, a) && t == Run(Step, INITIAL, actions)
  {
    Extend(Step, INITIAL, before, a);
    actions, t := before + [a], Step(s, a);
  }

  /** The established connections that are not over `b`. */
  function NotOver(s: State, b: BackendId): map<(AgentId, ConnId), DialId> {
    map k | k in s.established && s.established[k] in s.dials && s.dials[s.established[k]].backend != b ::
      s.established[k]
  }

  /** When a receive loop drops its connections, exactly those over its own backend
      leave `established`; those over other backends of the same agent stay. */
  lemma LossDropsItsOwn(actions: seq<Action>, b: BackendId)
    requires b in Run(Step, INITIAL, actions).backends
    requires Run(Step, INITIAL, actions).backends[b].loop == LosingDials({})
    ensures var s := Run(Step, INITIAL, actions);
            Step(s, AtLoop(b, LoseConns)).established == NotOver(s, b)
  {
    Always(actions);
    var s := Run(Step, INITIAL, actions);
    forall k | k in s.established
      ensures s.established[k] in s.dials
              && (s.established[k] in EstablishedOver(s, b) <==> s.dials[s.established[k]].backend == b)
    {
      assert IsEstablished(s, s.established[k]);
    }
    assert DropAll(s, EstablishedOver(s, b), BackendClose).established == NotOver(s, b);
  }

  /** Once a receive loop has dropped its connections, none over its backend is
      established again. */
  lemma LostBackendHasNoConns(actions: seq<Action>, b: BackendId, k: (AgentId, ConnId))
    requires var s := Run(Step, INITIAL, actions);
             b in s.backends && Lost(s.backends[b].loop) && k in s.established
    ensures var s := Run(Step, INITIAL, actions);
            s.established[k] in s.dials && s.dials[s.established[k]].backend != b
  {
    Always(actions);
    var s := Run(Step, INITIAL, actions);
    assert IsEstablished(s, s.established[k]);
    assert DialInv(ViewOf(s, s.established[k]));
  }
}
