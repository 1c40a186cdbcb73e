/** The dial and establish protocol of the proxy server.

    A dial is added to PendingDial, is claimed by whichever path removes it from
    there, may move to `established`, and is removed from there by another path.
    The paths run concurrently: the receive loop of each agent connection, the
    goroutine that called dialBackend, serverConn.Close, the timeout goroutine
    and the shutdown of a frontend stream. Each action below is one critical
    section or one packet send; every interleaving of actions is a run. */
module DialProtocol {
  import opened Options

  type DialId = nat
  type BackendId = nat
  type AgentId = nat
  type ConnId = nat
  type StreamId = nat

  /** Who asked for the dial: dialBackend, or a gRPC or HTTP-CONNECT stream. */
  datatype Frontend = InProcess | Stream(uid: StreamId)

  /** What the agent answers: DIAL_RSP with a connection, DIAL_RSP with an error,
      or DIAL_CLS. */
  datatype Reply = Unanswered | Opened(conn: ConnId) | Refused | Cancelled

  /** The path that removed a dial from PendingDial. */
  datatype Path =
    | Response | AgentCancel | FrontendCancel | SendFailure
    | Timeout | AgentLoss | FrontendShutdown | Dialer

  /** What the frontend is told about its dial: DIAL_RSP, DIAL_RSP with an error,
      or DIAL_CLS. */
  datatype Outcome = DialSucceeded(conn: ConnId) | DialFailed | DialCancelled

  /** An answer sent to the frontend; the send may fail. */
  datatype Answer = Answer(outcome: Outcome, ok: bool)

  /** The reasons under which a removal from `established` is counted. */
  datatype Reason = FrontendClose | SendResponse | CloseResponse | BackendClose

  /** Progress of the goroutine that called dialBackend. */
  datatype Caller = Dialing | Failed | Connected

  /** Progress of serverConn.Close: not called; connID read and the connection
      marked closed; removed from `established` and the CLOSE_REQ not yet queued. */
  datatype Closer = NotClosed | Marked(conn: ConnId) | Removed | Finished

  /** The CLOSE_REQs for a connection handed to the agent stream or its queue: all of
      them, those that answer DATA of a connection that is not established, and those
      that a client sent and the server passed on. */
  datatype Requests = Requests(total: nat, late: nat, forwarded: nat)

  datatype Dial = Dial(
    backend: BackendId,
    frontend: Frontend,
    reply: Reply,
    handled: bool,             // the receive loop has taken the reply
    notice: bool,              // a goroutine that claimed the dial still has to report the failure
    caller: Caller,
    // serverConn fields
    closer: Closer,
    closed: bool,
    connID: ConnId,
    // history
    claims: seq<Path>,
    answers: seq<Answer>,      // every attempt to tell the frontend
    added: bool,
    addedLate: bool,           // added when the cleanup of the stream had already looked for connections
    removed: Option<Reason>,
    counted: bool,
    asks: Requests,
    agentClosed: bool)         // a CLOSE_RSP for the connection was handled

  /** Progress of serveRecvBackend. */
  datatype Loop =
    | Idle
    | Claimed(dial: DialId)
    | Added(dial: DialId)
    | Rejected(dial: DialId)
    | Asking(dial: DialId)
    | Forwarding(dial: DialId, outcome: Outcome)
    | ForwardingClose(dial: DialId)
    | Ended
    | LosingDials(dials: set<DialId>)
    | LosingConns(dials: set<DialId>)
    | Exited

  datatype Backend = Backend(agent: AgentId, loop: Loop, contextDone: bool)

  /** Progress of the deferred cleanup of a frontend stream. */
  datatype Cleanup = Live | DialsCleaned | Telling(dials: set<DialId>) | Gone

  datatype State = State(
    pending: set<DialId>,
    established: map<(AgentId, ConnId), DialId>,
    dials: map<DialId, Dial>,
    owners: map<(AgentId, ConnId), DialId>,   // history: the dial each connection ID was opened for
    backends: map<BackendId, Backend>,
    streams: map<StreamId, Cleanup>,
    addedTotal: nat,
    closedTotal: map<Reason, nat>)

  const INITIAL := State({}, map[], map[], map[], map[], map[], 0, map[])

  /** What the receive loop of a backend does with a dial it holds. */
  datatype HeldOp =
    | Establish | Respond(ok: bool) | DropRejected | AskClose | Forward(ok: bool)
    | ForwardClose | NotifyLost(ok: bool) | NotifyClosed

  datatype LoopOp = EndLoop | LoseDials | LoseConns | ExitLoop | EndContext

  datatype DialerOp = ReturnConn | ReturnError | GiveUp | StartClose | RemoveOnClose | AskOnClose

  datatype StreamOp = Shutdown | CleanConns | TellShutdown(d: DialId) | FinishShutdown

  /** A gRPC or HTTP-CONNECT frontend ends one of its dials, or the timeout
      goroutine started for it does. */
  datatype StreamDialOp = CancelDial | FailSend | TimeOut | SendNotice(ok: bool) | PassOnClose

  datatype Action =
    | Connect(b: BackendId, agent: AgentId)
    | OpenStream(u: StreamId)
    | BeginInProcess(d: DialId, b: BackendId)
    | BeginStream(d: DialId, b: BackendId, u: StreamId)
    | AgentAnswers(d: DialId, reply: Reply)
    | TakeAnswer(d: DialId)
    | AgentCloses(d: DialId)
    | AgentSends(d: DialId)
    | OnHeld(b: BackendId, d: DialId, held: HeldOp)
    | AtLoop(b: BackendId, loop: LoopOp)
    | ByDialer(d: DialId, dialer: DialerOp)
    | ByStream(u: StreamId, stream: StreamOp)
    | OnStream(d: DialId, op: StreamDialOp)
    | Count(d: DialId)

  function NewDial(b: BackendId, f: Frontend): Dial {
    Dial(b, f, Unanswered, false, false, Dialing, NotClosed, false, 0,
         [], [], false, false, None, false, Requests(0, 0, 0), false)
  }

  function SetDial(s: State, d: DialId, x: Dial): State { s.(dials := s.dials[d := x]) }

  function SetLoop(s: State, b: BackendId, l: Loop): State
    requires b in s.backends
  {
    s.(backends := s.backends[b := s.backends[b].(loop := l)])
  }

  predicate Known(s: State, d: DialId) {
    && d in s.dials
    && s.dials[d].backend in s.backends
    && (s.dials[d].frontend.Stream? ==> s.dials[d].frontend.uid in s.streams)
  }

  /** The key of a dial's connection in `established`. */
  function Key(s: State, d: DialId): (AgentId, ConnId)
    requires Known(s, d)
  {
    var x := s.dials[d];
    (s.backends[x.backend].agent, if x.reply.Opened? then x.reply.conn else 0)
  }

  predicate IsEstablished(s: State, d: DialId) {
    Known(s, d) && s.dials[d].reply.Opened? && Key(s, d) in s.established && s.established[Key(s, d)] == d
  }

  /** PendingDial.Remove by `path`. */
  function Claim(s: State, d: DialId, path: Path): State
    requires d in s.dials
  {
    Unpend(SetDial(s, d, ClaimedBy(s.dials[d], d in s.pending, path)), d)
  }

  function Unpend(s: State, d: DialId): State { s.(pending := s.pending - {d}) }

  function ClaimedBy(x: Dial, wasPending: bool, path: Path): Dial {
    if wasPending then x.(claims := x.claims + [path]) else x
  }

  /** PendingDial.removeForBackend and removeForStream. */
  function ClaimAll(s: State, ds: set<DialId>, path: Path): State {
    s.(pending := s.pending - ds,
       dials := map d | d in s.dials ::
         if d in ds then s.dials[d].(claims := s.dials[d].claims + [path]) else s.dials[d])
  }

  /** removeEstablished. */
  function Drop(s: State, d: DialId, reason: Reason): State
    requires Known(s, d)
  {
    Leave(SetDial(s, d, DroppedBy(s.dials[d], IsEstablished(s, d), reason)), d)
  }

  function Leave(s: State, d: DialId): State
    requires Known(s, d)
  {
    s.(established := s.established - {Key(s, d)})
  }

  /** addEstablished. */
  function Enter(s: State, d: DialId): State
    requires Known(s, d)
  {
    s.(established := s.established[Key(s, d) := d], addedTotal := s.addedTotal + 1)
  }

  function DroppedBy(x: Dial, wasEstablished: bool, reason: Reason): Dial {
    if wasEstablished then x.(removed := Some(reason)) else x
  }

  /** removeEstablishedForBackendConn and removeEstablishedForStream. */
  function DropAll(s: State, ds: set<DialId>, reason: Reason): State {
    s.(established := map k | k in s.established && s.established[k] !in ds :: s.established[k],
       dials := map d | d in s.dials ::
         if d in ds then s.dials[d].(removed := Some(reason)) else s.dials[d])
  }

  /** The frontend is sent `outcome`; the send may fail. */
  function Told(x: Dial, outcome: Outcome, ok: bool): Dial { x.(answers := x.answers + [Answer(outcome, ok)]) }

  /** A CLOSE_REQ for the connection is handed to the agent stream or its queue. */
  function Asked(x: Dial): Dial { x.(asks := x.asks.(total := x.asks.total + 1)) }

  function AskedLate(x: Dial): Dial { x.(asks := x.asks.(total := x.asks.total + 1, late := x.asks.late + 1)) }

  function AskedByClient(x: Dial): Dial {
    x.(asks := x.asks.(total := x.asks.total + 1, forwarded := x.asks.forwarded + 1))
  }

  /** CLOSE_RSP handed to the frontend: serverConn.handleClose. */
  function ClosedByAgent(x: Dial): Dial {
    if x.frontend.InProcess? then x.(closed := true) else x
  }

  function LoopOf(s: State, b: BackendId): Loop {
    if b in s.backends then s.backends[b].loop else Idle
  }

  /** The dials a receive loop is working on. */
  function Held(l: Loop): set<DialId> {
    match l
    case Claimed(d) => {d}
    case Added(d) => {d}
    case Rejected(d) => {d}
    case Asking(d) => {d}
    case Forwarding(d, _) => {d}
    case ForwardingClose(d) => {d}
    case LosingDials(ds) => ds
    case LosingConns(ds) => ds
    case _ => {}
  }

  function PendingOver(s: State, b: BackendId): set<DialId> {
    set d | d in s.pending && d in s.dials && s.dials[d].backend == b
  }

  function EstablishedOver(s: State, b: BackendId): set<DialId> {
    set d | d in s.dials && IsEstablished(s, d) && s.dials[d].backend == b
  }

  function PendingOn(s: State, u: StreamId): set<DialId> {
    set d | d in s.pending && d in s.dials && s.dials[d].frontend == Stream(u)
  }

  function EstablishedOn(s: State, u: StreamId): set<DialId> {
    set d | d in s.dials && IsEstablished(s, d) && s.dials[d].frontend == Stream(u)
  }

  /** serveRecvBackend takes DIAL_RSP or DIAL_CLS. */
  function TakeStep(s: State, d: DialId): State
    requires Known(s, d)
  {
    var x := s.dials[d];
    var t := Claim(s, d, PathOf(x.reply));
    SetLoop(SetDial(t, d, t.dials[d].(handled := true)), x.backend, Taken(d, x.reply, d in s.pending))
  }

  function PathOf(reply: Reply): Path { if reply.Cancelled? then AgentCancel else Response }

  /** What the receive loop does next: an unrecognized DIAL_RSP with a connection
      is answered with a CLOSE_REQ, other unrecognized answers are dropped. */
  function Taken(d: DialId, reply: Reply, wasPending: bool): Loop {
    match reply
    case Opened(_) => if wasPending then Claimed(d) else Asking(d)
    case Refused => if wasPending then Forwarding(d, DialFailed) else Idle
    case Cancelled => if wasPending then Forwarding(d, DialCancelled) else Idle
    case Unanswered => Idle
  }

  /** Whether the frontend takes the DIAL_RSP: a serverConn refuses it once it is
      closed; sending it to a stream succeeds or fails. */
  predicate Accepts(s: State, d: DialId, ok: bool)
    requires Known(s, d)
  {
    match s.dials[d].frontend
    case InProcess => !s.dials[d].closed
    case Stream(_) => ok
  }

  /** The cleanup of the dial's stream has looked for connections. */
  predicate CleanedUp(s: State, d: DialId)
    requires Known(s, d)
  {
    match s.dials[d].frontend
    case InProcess => false
    case Stream(u) => s.streams[u].Telling? || s.streams[u].Gone?
  }

  /** The connection is put into `established`. */
  function EnteredAs(x: Dial, late: bool): Dial { x.(added := true, addedLate := late) }

  /** The frontend has taken a successful DIAL_RSP. */
  function Accepted(x: Dial): Dial
    requires x.reply.Opened?
  {
    Told(x, DialSucceeded(x.reply.conn), true).(
       connID := if x.frontend.InProcess? then x.reply.conn else x.connID)
  }

  /** The frontend has not taken it. */
  function RefusedBy(x: Dial): Dial
    requires x.reply.Opened?
  {
    Told(x, DialSucceeded(x.reply.conn), false)
  }

  /** The receive loop, on a dial it holds. */
  function HeldStep(s: State, b: BackendId, d: DialId, op: HeldOp): State
    requires b in s.backends && Known(s, d) && s.dials[d].backend == b
  {
    var l := s.backends[b].loop;
    match op
    case Establish =>
      if l == Claimed(d) && s.dials[d].reply.Opened?
      then SetLoop(Enter(SetDial(s, d, EnteredAs(s.dials[d], CleanedUp(s, d))), d), b, Added(d)) else s
    case Respond(ok) =>
      if l == Added(d) && s.dials[d].reply.Opened? then
        if Accepts(s, d, ok) then SetLoop(SetDial(s, d, Accepted(s.dials[d])), b, Idle)
        else SetLoop(SetDial(s, d, RefusedBy(s.dials[d])), b, Rejected(d))
      else s
    case DropRejected => if l == Rejected(d) then SetLoop(Drop(s, d, SendResponse), b, Asking(d)) else s
    case AskClose => if l == Asking(d) then SetLoop(SetDial(s, d, Asked(s.dials[d])), b, Idle) else s
    case Forward(ok) =>
      if l.Forwarding? && l.dial == d then SetLoop(SetDial(s, d, Told(s.dials[d], l.outcome, ok)), b, Idle) else s
    case ForwardClose =>
      if l == ForwardingClose(d) then SetLoop(SetDial(s, d, ClosedByAgent(s.dials[d])), b, Idle) else s
    case NotifyLost(ok) =>
      if l.LosingDials? && d in l.dials
      then SetLoop(SetDial(s, d, Told(s.dials[d], DialFailed, ok)), b, LosingDials(l.dials - {d})) else s
    case NotifyClosed =>
      if l.LosingConns? && d in l.dials
      then SetLoop(SetDial(s, d, ClosedByAgent(s.dials[d])), b, LosingConns(l.dials - {d})) else s
  }

  /** The receive loop ends: it fails the dials pending over its backend and then
      drops the connections established over it. */
  function LoopStep(s: State, b: BackendId, op: LoopOp): State
    requires b in s.backends
  {
    var l := s.backends[b].loop;
    match op
    case EndLoop => if l.Idle? then SetLoop(s, b, Ended) else s
    case LoseDials =>
      if l.Ended? then SetLoop(ClaimAll(s, PendingOver(s, b), AgentLoss), b, LosingDials(PendingOver(s, b))) else s
    case LoseConns =>
      if l == LosingDials({}) then
        SetLoop(DropAll(s, EstablishedOver(s, b), BackendClose), b, LosingConns(EstablishedOver(s, b)))
      else s
    case ExitLoop => if l == LosingConns({}) then SetLoop(s, b, Exited) else s
    case EndContext => s.(backends := s.backends[b := s.backends[b].(contextDone := true)])
  }

  /** The actions of dialBackend and serverConn.Close. Close also runs when the
      agent connection's context ends after the connection was established. */
  function DialerStep(s: State, d: DialId, op: DialerOp): State
    requires Known(s, d) && s.dials[d].frontend.InProcess?
  {
    var x := s.dials[d];
    match op
    case ReturnConn => if x.caller.Dialing? && x.connID != 0 then SetDial(s, d, x.(caller := Connected)) else s
    case ReturnError =>
      if x.caller.Dialing? && (Answer(DialFailed, true) in x.answers || Answer(DialCancelled, true) in x.answers)
      then SetDial(s, d, x.(caller := Failed)) else s
    case GiveUp =>
      if x.caller.Dialing? then
        var t := Claim(s, d, Dialer);
        SetDial(t, d, t.dials[d].(caller := Failed))
      else s
    case StartClose =>
      if x.closer.NotClosed? && (!x.caller.Dialing? || (x.added && s.backends[x.backend].contextDone))
      then SetDial(s, d, x.(closed := true, closer := Marked(x.connID))) else s
    case RemoveOnClose =>
      if x.closer == Marked(0) then
        var t := Claim(s, d, Dialer);
        SetDial(t, d, t.dials[d].(closer := Finished))
      else if x.closer.Marked? then
        var t := Drop(s, d, FrontendClose);
        SetDial(t, d, t.dials[d].(closer := if IsEstablished(s, d) then Removed else Finished))
      else s
    case AskOnClose =>
      if x.closer.Removed? then SetDial(s, d, Asked(x).(closer := Finished)) else s
  }

  /** The deferred cleanup of a frontend stream. */
  function StreamStep(s: State, u: StreamId, op: StreamOp): State
    requires u in s.streams
  {
    var c := s.streams[u];
    match op
    case Shutdown =>
      if c.Live? then ClaimAll(s, PendingOn(s, u), FrontendShutdown).(streams := s.streams[u := DialsCleaned]) else s
    case CleanConns =>
      if c.DialsCleaned? then
        DropAll(s, EstablishedOn(s, u), FrontendClose).(streams := s.streams[u := Telling(EstablishedOn(s, u))])
      else s
    case TellShutdown(d) =>
      if c.Telling? && d in c.dials && d in s.dials
      then SetDial(s, d, Asked(s.dials[d])).(streams := s.streams[u := Telling(c.dials - {d})]) else s
    case FinishShutdown => if c == Telling({}) then s.(streams := s.streams[u := Gone]) else s
  }

  function StreamDialStep(s: State, d: DialId, op: StreamDialOp): State
    requires Known(s, d) && s.dials[d].frontend.Stream?
  {
    var live := s.streams[s.dials[d].frontend.uid].Live?;
    match op
    case CancelDial => if live then Claim(s, d, FrontendCancel) else s
    case FailSend => if live && d in s.pending then ClaimWithNotice(s, d, SendFailure) else s
    case TimeOut => if d in s.pending then ClaimWithNotice(s, d, Timeout) else s
    case SendNotice(ok) =>
      if s.dials[d].notice then SetDial(s, d, Told(s.dials[d], DialFailed, ok).(notice := false)) else s
    case PassOnClose => if live && WasAccepted(s.dials[d]) then SetDial(s, d, AskedByClient(s.dials[d])) else s
  }

  /** The frontend took the DIAL_RSP. */
  predicate WasAccepted(x: Dial) { |x.answers| == 1 && x.answers[0].ok && x.answers[0].outcome.DialSucceeded? }

  /** The claimant will report the failure to the frontend. */
  function ClaimWithNotice(s: State, d: DialId, path: Path): State
    requires d in s.dials
  {
    var t := Claim(s, d, path);
    SetDial(t, d, t.dials[d].(notice := true))
  }

  /** CLOSE_RSP from the agent. */
  function AgentCloseStep(s: State, d: DialId): State
    requires Known(s, d)
  {
    var t := Drop(s, d, CloseResponse);
    SetLoop(SetDial(t, d, t.dials[d].(agentClosed := true)), s.dials[d].backend,
            AfterClose(d, IsEstablished(s, d)))
  }

  /** DATA from the agent: it is delivered, or answered with a CLOSE_REQ if the
      connection is not established. */
  function AgentDataStep(s: State, d: DialId): State
    requires Known(s, d)
  {
    if IsEstablished(s, d) then s else SetDial(s, d, AskedLate(s.dials[d]))
  }

  function AfterClose(d: DialId, wasEstablished: bool): Loop {
    if wasEstablished then ForwardingClose(d) else Idle
  }

  /** How many closed connections are counted under `r`. */
  function ClosedTotal(s: State, r: Reason): nat { if r in s.closedTotal then s.closedTotal[r] else 0 }

  function CountStep(s: State, d: DialId, r: Reason): State
    requires d in s.dials
  {
    SetDial(s, d, s.dials[d].(counted := true)).(closedTotal := s.closedTotal[r := ClosedTotal(s, r) + 1])
  }

  /** The agent's answer. Connection IDs are nonzero, and an agent opens each only
      once. */
  function AnswerStep(s: State, d: DialId, reply: Reply): State
    requires Known(s, d)
  {
    if !reply.Opened? then SetDial(s, d, s.dials[d].(reply := reply)) else OpenStep(s, d, reply.conn)
  }

  function OpenStep(s: State, d: DialId, conn: ConnId): State
    requires Known(s, d)
  {
    var key := (s.backends[s.dials[d].backend].agent, conn);
    if conn == 0 || key in s.owners then s
    else SetDial(s, d, s.dials[d].(reply := Opened(conn))).(owners := s.owners[key := d])
  }

  function Step(s: State, a: Action): State {
    match a
    case Connect(b, agent) =>
      if b in s.backends then s else s.(backends := s.backends[b := Backend(agent, Idle, false)])
    case OpenStream(u) => if u in s.streams then s else s.(streams := s.streams[u := Live])
    case BeginInProcess(d, b) =>
      if d in s.dials || b !in s.backends then s
      else SetDial(s, d, NewDial(b, InProcess)).(pending := s.pending + {d})
    case BeginStream(d, b, u) =>
      if d in s.dials || b !in s.backends || u !in s.streams || !s.streams[u].Live? then s
      else SetDial(s, d, NewDial(b, Stream(u))).(pending := s.pending + {d})
    case AgentAnswers(d, reply) =>
      if Known(s, d) && s.dials[d].reply.Unanswered? then AnswerStep(s, d, reply) else s
    case TakeAnswer(d) =>
      if Known(s, d) && LoopOf(s, s.dials[d].backend).Idle? && !s.dials[d].reply.Unanswered? && !s.dials[d].handled
      then TakeStep(s, d) else s
    case AgentCloses(d) =>
      if Known(s, d) && LoopOf(s, s.dials[d].backend).Idle? && s.dials[d].reply.Opened? && s.dials[d].handled
      then AgentCloseStep(s, d) else s
    case AgentSends(d) =>
      if Known(s, d) && LoopOf(s, s.dials[d].backend).Idle? && s.dials[d].reply.Opened? && s.dials[d].handled
         && !s.dials[d].agentClosed
      then AgentDataStep(s, d) else s
    case OnHeld(b, d, op) =>
      if b in s.backends && Known(s, d) && s.dials[d].backend == b then HeldStep(s, b, d, op) else s
    case AtLoop(b, op) => if b in s.backends then LoopStep(s, b, op) else s
    case ByDialer(d, op) => if Known(s, d) && s.dials[d].frontend.InProcess? then DialerStep(s, d, op) else s
    case ByStream(u, op) => if u in s.streams then StreamStep(s, u, op) else s
    case OnStream(d, op) => if Known(s, d) && s.dials[d].frontend.Stream? then StreamDialStep(s, d, op) else s
    case Count(d) =>
      if d in s.dials && s.dials[d].removed.Some? && !s.dials[d].counted
      then CountStep(s, d, s.dials[d].removed.value) else s
  }
}
