/** The end of an agent's stream, and the watcher that aborts a frontend when the
    agent's connection fails. Returning from the stream's handler cancels its context
    too, so a clean end has to be told from a failure. */
module BackendWatch {
  import opened Runs

  datatype State = State(
    receivedEOF: bool,
    stopped: bool,           // the receive loop has told the handler to return
    retired: bool,           // the backend was retired
    failed: bool,            // the transport failed
    ctxDone: bool,
    fired: bool,             // the watcher has run
    aborted: bool)

  /** The receive loop reads the end of the stream and then wakes the handler, or reads
      an error and wakes it; the handler returns; the transport fails; the watcher, once
      the context is done, runs once. */
  datatype Action = ReadEOF | ReadError | WakeHandler | Retire | HandlerReturns | TransportFails | CancelContext | Fire

  const INITIAL := State(false, false, false, false, false, false, false)

  function Step(s: State, a: Action): State {
    match a
    case ReadEOF => if !s.stopped then s.(receivedEOF := true) else s
    case ReadError => if s.failed || s.ctxDone then s.(stopped := true) else s
    case WakeHandler => if s.receivedEOF then s.(stopped := true) else s
    case Retire => s.(retired := true)
    case HandlerReturns => if s.stopped || s.retired then s.(ctxDone := true) else s
    case TransportFails => s.(failed := true)
    case CancelContext => if s.failed then s.(ctxDone := true) else s
    case Fire => if s.ctxDone && !s.fired then s.(fired := true, aborted := !s.receivedEOF) else s
  }

  ghost predicate Inv(s: State) {
    && (s.stopped ==> s.receivedEOF || s.failed || s.ctxDone)
    && (s.ctxDone ==> s.receivedEOF || s.failed || s.retired)
    && (s.aborted ==> s.fired && (s.failed || s.retired))
  }

  lemma StepKeepsInv(s: State, a: Action)
    requires Inv(s)
    ensures Inv(Step(s, a))
  {}

  /** A clean end was received in time: the watcher has not run without it. */
  ghost predicate EndedCleanly(s: State) { Inv(s) && s.receivedEOF && !s.aborted }

  lemma StepKeepsCleanEnd(s: State, a: Action)
    requires EndedCleanly(s)
    ensures EndedCleanly(Step(s, a))
  {
    StepKeepsInv(s, a);
  }

  /** In every interleaving, once the end of the agent's stream was received and the
      watcher has not run before, the frontend is never aborted, whatever happens to the
      transport, the backend and the handler afterwards. */
  lemma CleanEndNeverAborts(before: seq<Action>, after: seq<Action>)
    requires Run(Step, INITIAL, before).receivedEOF && !Run(Step, INITIAL, before).fired
    ensures !Run(Step, INITIAL, before + after).aborted
  {
    Always(before);
    forall t, a | EndedCleanly(t) ensures EndedCleanly(Step(t, a)) { StepKeepsCleanEnd(t, a); }
    Invariance(Step, EndedCleanly, Run(Step, INITIAL, before), after);
    Compose(Step, INITIAL, before, after);
  }

  lemma Always(actions: seq<Action>)
    ensures Inv(Run(Step, INITIAL, actions))
  {
    forall t, a | Inv(t) ensures Inv(Step(t, a)) { StepKeepsInv(t, a); }
    Invariance(Step, Inv, INITIAL, actions);
  }

  /** In every interleaving the frontend is aborted only if the transport failed or the
      backend was retired: the return of the handler alone, which cancels the context
      too, never does it. */
  lemma AbortTakesFailure(actions: seq<Action>)
    ensures var s := Run(Step, INITIAL, actions); s.aborted ==> s.failed || s.retired
  {
    Always(actions);
  }

  /** A failure that is noticed before the clean end is read does abort. */
  lemma FailureAborts()
    ensures exists actions :: Run(Step, INITIAL, actions).aborted
  {
    ReachesSelf(Step, INITIAL);
    var s := INITIAL;
    ReachesNext(Step, INITIAL, s, TransportFails);
    s := Step(s, TransportFails);
    ReachesNext(Step, INITIAL, s, CancelContext);
    s := Step(s, CancelContext);
    ReachesNext(Step, INITIAL, s, Fire);
    s := Step(s, Fire);
    var actions :| Run(Step, INITIAL, actions) == s;
  }
}
