/** The path of the bytes of one connection from the remote, through the agent, the
    agent stream, the server's receive loop and serverConn, to the caller of Read. */
module Pipeline {
  import opened Bytes
  import opened Options
  import opened Runs
  import Agent = AgentEndpoint
  import EndpointProofs
  import opened ServerConn

  /** serveRecvBackend, for this connection: handing DATA to Send, or closing. */
  datatype Dispatch = AwaitPacket | Delivering(data: Bytes) | Closing(cause: CloseError)

  datatype Server = Server(
    taken: nat,                      // packets of the agent stream taken by the receive loop
    dispatch: Dispatch,
    ended: bool,                     // the receive loop has ended: the rest of the stream is lost
    established: bool,
    sink: Sink,                      // the serverConn
    // history
    returned: Bytes,                 // bytes returned by Read
    refused: Bytes,                  // bytes that came too late
    sawEnd: Option<CloseError>)      // Read reported the end of the stream

  datatype State = State(agent: Agent.State, server: Server)

  datatype Action =
    | OnAgent(action: Agent.Action)
    | TakePacket | Deliver | FinishClose | EndLoop | LoseConn
    | ReadCall(n: nat) | ReadExpires
    | CloseCall | Unregister

  function Initial(sendCap: nat, dataCap: nat, maxBuffered: nat): State {
    State(Agent.Initial(sendCap, dataCap),
          Server(0, AwaitPacket, false, false, Sink(maxBuffered, [], [], false, false, None), [], [], None))
  }

  const UNKNOWN_ID := "unrecognized connectID"

  /** The receive loop takes a packet. A successful DIAL_RSP establishes the
      connection unless the dialer has given it up. */
  function TakeStep(v: Server, p: Agent.Up): Server {
    var w := v.(taken := v.taken + 1);
    match p
    case DialOk => w.(established := !v.sink.closed)
    case DialError => w
    case Data(d) => if v.established then w.(dispatch := Delivering(d)) else w.(refused := v.refused + d)
    case CleanClose => if v.established then w.(established := false, dispatch := Closing(EndOfFile)) else w
    case ErrorClose =>
      if v.established then w.(established := false, dispatch := Closing(AgentError(UNKNOWN_ID))) else w
  }

  /** Send, for a DATA packet; it stays in hand while the buffer is full. */
  function DeliverStep(v: Server): Server
    requires v.dispatch.Delivering?
  {
    match SendOutcome(v.sink)
    case Accepted => v.(dispatch := AwaitPacket, sink := Accept(v.sink, v.dispatch.data))
    case Refused => v.(dispatch := AwaitPacket, refused := v.refused + v.dispatch.data)
    case Full => v
  }

  function ReadStep(v: Server, n: nat): Server {
    var (sink, r) := ReadFrom(v.sink, n);
    v.(sink := sink, returned := v.returned + BytesOf(r),
       sawEnd := if r.Failed? && !v.sink.localClosed then Some(r.error) else v.sawEnd)
  }

  function ServerStep(v: Server, up: seq<Agent.Up>, a: Action): Server {
    match a
    case TakePacket =>
      if v.dispatch.AwaitPacket? && !v.ended && v.taken < |up| then TakeStep(v, up[v.taken]) else v
    case Deliver => if v.dispatch.Delivering? then DeliverStep(v) else v
    case FinishClose =>
      if v.dispatch.Closing? then v.(dispatch := AwaitPacket, sink := CloseWith(v.sink, v.dispatch.cause)) else v
    case EndLoop => if v.dispatch.AwaitPacket? then v.(ended := true) else v
    case LoseConn =>
      if v.ended && v.established then v.(established := false, sink := CloseWith(v.sink, EndOfFile)) else v
    case ReadCall(n) => ReadStep(v, n)
    case ReadExpires =>
      if !v.sink.localClosed && v.sink.rdata == [] && v.sink.buffer != [] then v.(sink := Shift(v.sink)) else v
    case CloseCall => v.(sink := CloseWith(v.sink, LocalClose).(localClosed := true))
    case Unregister => if v.sink.localClosed then v.(established := false) else v
    case OnAgent(_) => v
  }

  function Step(s: State, a: Action): State {
    match a
    case OnAgent(b) => s.(agent := Agent.Step(s.agent, b))
    case _ => s.(server := ServerStep(s.server, s.agent.up, a))
  }

  /** The bytes of packets from the agent. */
  function Carried(up: seq<Agent.Up>): Bytes { Payload(EndpointProofs.DataOf, up) }

  function Hand(v: Server): Bytes { if v.dispatch.Delivering? then v.dispatch.data else [] }

  ghost predicate Took(up: seq<Agent.Up>, v: Server, p: Agent.Up)
    requires v.taken <= |up|
  {
    p in up[..v.taken]
  }

  ghost predicate StateInv(up: seq<Agent.Up>, v: Server) {
    && v.taken <= |up|
    && Wellformed(v.sink)
    && (v.sink.closeErr == Some(LocalClose) ==> v.sink.localClosed)
    && (v.ended ==> v.dispatch.AwaitPacket?)
    && (v.dispatch.Closing? ==> !v.established && !v.dispatch.cause.LocalClose?
                                && Took(up, v, if v.dispatch.cause.EndOfFile? then Agent.CleanClose
                                               else Agent.ErrorClose))
    && (v.sink.closeErr == Some(EndOfFile) ==> v.ended || Took(up, v, Agent.CleanClose))
    && (v.sink.closeErr.Some? && v.sink.closeErr.value.AgentError? ==> Took(up, v, Agent.ErrorClose))
    && (v.taken > 0 && up[0].DialOk? && !v.established ==> v.sink.closed || v.dispatch.Closing?)
    && (v.taken == 0 ==> !v.established)
    && (v.dispatch.Delivering? ==> !Took(up, v, Agent.CleanClose) && !Took(up, v, Agent.ErrorClose))
  }

  /** The bytes that reached serverConn, in order. */
  function Received(v: Server): Bytes { v.returned + Unread(v.sink) }

  /** Every byte taken from the agent stream reached serverConn, in order, except
      that bytes are refused after a local close, and then all later ones are. */
  ghost predicate FlowInv(up: seq<Agent.Up>, v: Server)
    requires v.taken <= |up|
  {
    && Received(v) + (v.refused + Hand(v)) == Carried(up[..v.taken])
    && (v.refused != [] ==> v.sink.localClosed)
    && (v.sawEnd.Some? ==> Unread(v.sink) == [] && v.sink.closeErr == v.sawEnd)
  }

  ghost predicate ServerInv(up: seq<Agent.Up>, v: Server) { StateInv(up, v) && FlowInv(up, v) }

  ghost predicate Inv(s: State) { EndpointProofs.Inv(s.agent) && ServerInv(s.agent.up, s.server) }

  // ----- The agent only appends to its stream -----

  lemma DialExtends(s: Agent.State, op: Agent.DialOp)
    ensures s.up <= Agent.DialStep(s, op).up
  {}

  lemma CleanExtends(s: Agent.State, op: Agent.CleanOp)
    ensures s.up <= Agent.CleanStep(s, op).up
  {}

  lemma SendExtends(s: Agent.State, op: Agent.SendOp)
    ensures s.up <= Agent.SendStep(s, op).up
  {}

  lemma AgentExtends(s: Agent.State, a: Agent.Action)
    ensures s.up <= Agent.Step(s, a).up
  {
    match a
    case Dial(op) => DialExtends(s, op);
    case Clean(op) => CleanExtends(s, op);
    case ToServer(op) => SendExtends(s, op);
    case ReceiveClose(_) => CleanExtends(s, Agent.Call);
    case _ =>
  }

  lemma ExtensionKeepsServer(up: seq<Agent.Up>, next: seq<Agent.Up>, v: Server)
    requires ServerInv(up, v) && up <= next
    ensures ServerInv(next, v)
  {
    assert next[..v.taken] == up[..v.taken];
  }

  /** What the agent's invariant says about its stream. */
  ghost predicate StreamOk(up: seq<Agent.Up>) {
    && EndpointProofs.Ordered(up)
    && (up != [] ==> up[0].DialOk? || forall p | p in up :: !p.Data?)
    && (forall i | 1 <= i < |up| :: !up[i].DialOk?)
  }

  lemma AgentStreamOk(s: Agent.State)
    requires EndpointProofs.Inv(s)
    ensures StreamOk(s.up)
  {}

  lemma NoCloseBeforeData(up: seq<Agent.Up>, k: nat)
    requires EndpointProofs.Ordered(up) && k < |up| && up[k].Data?
    ensures Agent.CleanClose !in up[..k] && Agent.ErrorClose !in up[..k]
  {
    assert forall i | 0 <= i < k :: up[..k][i] == up[i];
  }

  // ----- The receive loop -----

  lemma TakeKeepsState(up: seq<Agent.Up>, v: Server)
    requires StateInv(up, v) && StreamOk(up) && v.dispatch.AwaitPacket? && !v.ended && v.taken < |up|
    ensures StateInv(up, TakeStep(v, up[v.taken]))
  {
    var p := up[v.taken];
    assert up[..v.taken + 1] == up[..v.taken] + [p];
    if p.Data? { NoCloseBeforeData(up, v.taken); }
  }

  /** Only a local close makes the receive loop refuse DATA. */
  lemma RefusedAfterLocalClose(up: seq<Agent.Up>, v: Server)
    requires StateInv(up, v) && StreamOk(up) && v.dispatch.AwaitPacket? && !v.ended && v.taken < |up|
    requires up[v.taken].Data? && !v.established
    ensures v.sink.localClosed
  {
    NoCloseBeforeData(up, v.taken);
  }

  lemma TakeDataKeepsFlow(up: seq<Agent.Up>, v: Server, d: Bytes)
    requires StateInv(up, v) && FlowInv(up, v) && StreamOk(up) && v.dispatch.AwaitPacket? && !v.ended && v.taken < |up|
    requires up[v.taken] == Agent.Data(d)
    requires Carried(up[..v.taken + 1]) == Carried(up[..v.taken]) + d
    ensures FlowInv(up, TakeStep(v, Agent.Data(d)))
  {
    var w := TakeStep(v, Agent.Data(d));
    if !v.established { RefusedAfterLocalClose(up, v); }
    assert w.refused + Hand(w) == v.refused + d;
    assert Received(w) + (v.refused + d) == (Received(v) + (v.refused + Hand(v))) + d;
  }

  lemma TakeOtherKeepsFlow(up: seq<Agent.Up>, v: Server, p: Agent.Up)
    requires StateInv(up, v) && FlowInv(up, v) && v.dispatch.AwaitPacket? && v.taken < |up| && !p.Data?
    requires Carried(up[..v.taken + 1]) == Carried(up[..v.taken])
    ensures FlowInv(up, TakeStep(v, p))
  {
    var w := TakeStep(v, p);
    assert Received(w) == Received(v) && Hand(w) == Hand(v);
  }

  lemma TakeKeepsFlow(up: seq<Agent.Up>, v: Server)
    requires StateInv(up, v) && FlowInv(up, v) && StreamOk(up) && v.dispatch.AwaitPacket? && !v.ended && v.taken < |up|
    ensures FlowInv(up, TakeStep(v, up[v.taken]))
  {
    var p := up[v.taken];
    assert up[..v.taken + 1] == up[..v.taken] + [p];
    PayloadAppend(EndpointProofs.DataOf, up[..v.taken], p);
    if p.Data? { TakeDataKeepsFlow(up, v, p.payload); } else { TakeOtherKeepsFlow(up, v, p); }
  }

  lemma DeliverKeeps(up: seq<Agent.Up>, v: Server)
    requires ServerInv(up, v) && v.dispatch.Delivering?
    ensures ServerInv(up, DeliverStep(v))
  {
    var w := DeliverStep(v);
    match SendOutcome(v.sink)
    case Accepted =>
      FlatAppend(v.sink.buffer, v.dispatch.data);
      assert v.refused == [];
      assert Received(w) == Received(v) + Hand(v);
    case Refused => assert w.refused + Hand(w) == v.refused + Hand(v);
    case Full =>
  }

  lemma CloseKeeps(up: seq<Agent.Up>, v: Server, a: Action)
    requires ServerInv(up, v) && (a.FinishClose? || a.EndLoop? || a.LoseConn? || a.CloseCall? || a.Unregister?)
    ensures ServerInv(up, ServerStep(v, up, a))
  {
    var w := ServerStep(v, up, a);
    assert Received(w) == Received(v) && Hand(w) == Hand(v);
  }

  // ----- Read -----

  lemma ReadKeeps(up: seq<Agent.Up>, v: Server, n: nat)
    requires ServerInv(up, v)
    ensures ServerInv(up, ReadStep(v, n))
  {
    ReadFromConserves(v.sink, n);
    var (k, r) := ReadFrom(v.sink, n);
    assert v.returned + (BytesOf(r) + Unread(k)) == v.returned + BytesOf(r) + Unread(k);
  }

  lemma ReadExpiresKeeps(up: seq<Agent.Up>, v: Server)
    requires ServerInv(up, v) && v.sink.rdata == [] && v.sink.buffer != []
    ensures ServerInv(up, v.(sink := Shift(v.sink)))
  {
    ShiftKeepsUnread(v.sink);
  }

  // ----- Every step keeps the invariant -----

  lemma ServerKeepsInv(up: seq<Agent.Up>, v: Server, a: Action)
    requires ServerInv(up, v) && StreamOk(up)
    ensures ServerInv(up, ServerStep(v, up, a))
  {
    match a
    case TakePacket =>
      if v.dispatch.AwaitPacket? && !v.ended && v.taken < |up| {
        TakeKeepsState(up, v);
        TakeKeepsFlow(up, v);
      }
    case Deliver => if v.dispatch.Delivering? { DeliverKeeps(up, v); }
    case ReadCall(n) => ReadKeeps(up, v, n);
    case ReadExpires => if v.sink.rdata == [] && v.sink.buffer != [] { ReadExpiresKeeps(up, v); }
    case OnAgent(_) =>
    case _ => CloseKeeps(up, v, a);
  }

  lemma AgentKeepsInv(s: State, b: Agent.Action)
    requires Inv(s)
    ensures Inv(Step(s, OnAgent(b)))
  {
    EndpointProofs.StepKeepsInv(s.agent, b);
    AgentExtends(s.agent, b);
    ExtensionKeepsServer(s.agent.up, Agent.Step(s.agent, b).up, s.server);
  }

  lemma StepKeepsInv(s: State, a: Action)
    requires Inv(s)
    ensures Inv(Step(s, a))
  {
    if a.OnAgent? {
      AgentKeepsInv(s, a.action);
    } else {
      AgentStreamOk(s.agent);
      ServerKeepsInv(s.agent.up, s.server, a);
    }
  }

  lemma Always(sendCap: nat, dataCap: nat, maxBuffered: nat, actions: seq<Action>)
    ensures Inv(Run(Step, Initial(sendCap, dataCap, maxBuffered), actions))
  {
    forall t, a | Inv(t) ensures Inv(Step(t, a)) { StepKeepsInv(t, a); }
    Invariance(Step, Inv, Initial(sendCap, dataCap, maxBuffered), actions);
  }

  // ----- The theorems -----

  /** In every interleaving the bytes Read returns are a prefix of the bytes the
      agent read from the remote. */
  lemma ReturnedIsPrefixOfRead(sendCap: nat, dataCap: nat, maxBuffered: nat, actions: seq<Action>)
    ensures var s := Run(Step, Initial(sendCap, dataCap, maxBuffered), actions);
            s.server.returned <= s.agent.inflow.fromRemote
  {
    Always(sendCap, dataCap, maxBuffered, actions);
    var s := Run(Step, Initial(sendCap, dataCap, maxBuffered), actions);
    PayloadOfPrefix(EndpointProofs.DataOf, s.agent.up, s.server.taken);
  }

  /** The remote ended the stream, the reader did not close it, and the receive loop has
      taken the agent's CLOSE_RSP. */
  ghost predicate Orderly(s: State)
    requires s.server.taken <= |s.agent.up|
  {
    s.agent.inflow.remoteEnded && !s.server.sink.localClosed && Took(s.agent.up, s.server, Agent.CleanClose)
  }

  lemma EndMeansAllTaken(up: seq<Agent.Up>, v: Server)
    requires ServerInv(up, v) && v.sawEnd.Some? && !v.sink.localClosed
    ensures v.returned == Carried(up[..v.taken])
  {
    assert v.sink.closeErr.Some? && !v.dispatch.Delivering?;
    assert Hand(v) == [] && Received(v) == v.returned;
  }

  /** A packet after the CLOSE_RSP carries no bytes. */
  lemma NoDataAfterClose(up: seq<Agent.Up>, k: nat)
    requires EndpointProofs.Ordered(up) && k <= |up| && Agent.CleanClose in up[..k]
    ensures Carried(up[..k]) == Carried(up)
  {
    var i :| 0 <= i < k && up[..k][i].CleanClose?;
    assert up[i].CleanClose?;
    PayloadOfPrefix(EndpointProofs.DataOf, up, k);
  }

  /** Once the clean CLOSE_RSP is sent, only the reader can have kept bytes back. */
  lemma OnlyReaderIsBehind(s: Agent.State)
    requires EndpointProofs.Inv(s) && Agent.CleanClose in s.up
    ensures EndpointProofs.Behind(s.inflow) == EndpointProofs.Held(s.inflow)
  {
    assert s.inflow.undelivered == [] && s.inflow.queue == [] && EndpointProofs.Ahead(s.inflow) == [];
  }

  /** A prefix of what was sent is all that was read if and only if it is all that was
      sent and nothing is behind. */
  lemma PrefixIsAll(part: Bytes, sent: Bytes, behind: Bytes, read: Bytes)
    requires part <= sent && sent + behind == read
    ensures part == read <==> part == sent && behind == []
  {
    if part == read { assert |part| == |sent| + |behind|; }
  }

  /** In every interleaving, when Read has reported an end and nobody closed locally: it
      has returned every byte of the packets the receive loop took. These are all the
      bytes the agent read from the remote if and only if the packets taken carry all
      that was sent and the agent holds and lost none; once the agent's CLOSE_RSP was
      taken, if and only if the agent's reader holds and lost none; and so if the remote
      had ended the stream. */
  lemma EndOfFileMeansAllReturned(sendCap: nat, dataCap: nat, maxBuffered: nat, actions: seq<Action>)
    ensures var s := Run(Step, Initial(sendCap, dataCap, maxBuffered), actions);
            var (v, up, inflow) := (s.server, s.agent.up, s.agent.inflow);
            && v.taken <= |up|
            && (v.sawEnd.Some? && !v.sink.localClosed ==>
                  && v.returned == Carried(up[..v.taken])
                  && (v.returned == inflow.fromRemote <==>
                        Carried(up[..v.taken]) == Carried(up) && EndpointProofs.Behind(inflow) == [])
                  && (Took(up, v, Agent.CleanClose) ==>
                        (v.returned == inflow.fromRemote <==> EndpointProofs.Held(inflow) == []))
                  && (Orderly(s) ==> v.returned == inflow.fromRemote))
  {
    Always(sendCap, dataCap, maxBuffered, actions);
    var s := Run(Step, Initial(sendCap, dataCap, maxBuffered), actions);
    if s.server.sawEnd.Some? && !s.server.sink.localClosed { EndIsExact(s); }
  }

  lemma EndIsExact(s: State)
    requires Inv(s) && s.server.sawEnd.Some? && !s.server.sink.localClosed
    ensures var (v, up, inflow) := (s.server, s.agent.up, s.agent.inflow);
            && v.returned == Carried(up[..v.taken])
            && (v.returned == inflow.fromRemote <==>
                  Carried(up[..v.taken]) == Carried(up) && EndpointProofs.Behind(inflow) == [])
            && (Took(up, v, Agent.CleanClose) ==>
                  (v.returned == inflow.fromRemote <==> EndpointProofs.Held(inflow) == []))
            && (Orderly(s) ==> v.returned == inflow.fromRemote)
  {
    var (v, up, inflow) := (s.server, s.agent.up, s.agent.inflow);
    EndMeansAllTaken(up, v);
    PayloadOfPrefix(EndpointProofs.DataOf, up, v.taken);
    PrefixIsAll(Carried(up[..v.taken]), Carried(up), EndpointProofs.Behind(inflow), inflow.fromRemote);
    if Took(up, v, Agent.CleanClose) {
      NoDataAfterClose(up, v.taken);
      OnlyReaderIsBehind(s.agent);
    }
  }

  // ----- Such runs exist for every stream -----

  /** The connection is up, and all bytes read from the remote were returned. */
  ghost predicate CaughtUp(s: State, bytes: Bytes) {
    && s.agent.dialer.DialEnded? && s.agent.cleaner.NotCalled? && s.agent.managed && !s.agent.broken
    && s.agent.closes == Agent.Signals(1, 0, 0, 0)
    && s.agent.inflow == Agent.Inflow(Agent.Reading, Agent.Taking, [], s.agent.inflow.cap, bytes, [], [], false)
    && s.server == Server(|s.agent.up|, AwaitPacket, false, true,
                          Sink(s.server.sink.maxBuffered, [], [], false, false, None), bytes, [], None)
    && s.server.sink.maxBuffered > 0
  }

  lemma StartUp(sendCap: nat, dataCap: nat, maxBuffered: nat) returns (s: State)
    requires maxBuffered > 0
    ensures Reaches(Step, Initial(sendCap, dataCap, maxBuffered), s) && CaughtUp(s, [])
  {
    var s0 := Initial(sendCap, dataCap, maxBuffered);
    ReachesSelf(Step, s0);
    s := Step(s0, OnAgent(Agent.Dial(Agent.Connect)));
    ReachesNext(Step, s0, s0, OnAgent(Agent.Dial(Agent.Connect)));
    ReachesNext(Step, s0, s, OnAgent(Agent.Dial(Agent.Answer(true))));
    s := Step(s, OnAgent(Agent.Dial(Agent.Answer(true))));
    ReachesNext(Step, s0, s, OnAgent(Agent.Dial(Agent.EndDial)));
    s := Step(s, OnAgent(Agent.Dial(Agent.EndDial)));
    ReachesNext(Step, s0, s, TakePacket);
    s := Step(s, TakePacket);
  }

  /** A chunk through the agent. */
  lemma AgentRound(s0: State, s: State, bytes: Bytes, d: Bytes) returns (t: State)
    requires Reaches(Step, s0, s) && CaughtUp(s, bytes) && |d| <= 4096
    ensures Reaches(Step, s0, t)
    ensures t == s.(agent := s.agent.(up := s.agent.up + [Agent.Data(d)],
                                      inflow := s.agent.inflow.(fromRemote := bytes + d)))
  {
    ReachesNext(Step, s0, s, OnAgent(Agent.FromRemote(Agent.Read(d))));
    t := Step(s, OnAgent(Agent.FromRemote(Agent.Read(d))));
    ReachesNext(Step, s0, t, OnAgent(Agent.FromRemote(Agent.Put)));
    t := Step(t, OnAgent(Agent.FromRemote(Agent.Put)));
    ReachesNext(Step, s0, t, OnAgent(Agent.ToServer(Agent.Take)));
    t := Step(t, OnAgent(Agent.ToServer(Agent.Take)));
    ReachesNext(Step, s0, t, OnAgent(Agent.ToServer(Agent.SendData(true))));
    t := Step(t, OnAgent(Agent.ToServer(Agent.SendData(true))));
  }

  /** A whole chunk is read at once. */
  lemma ReadChunk(k: Sink, d: Bytes)
    requires !k.localClosed && !k.closed && k.rdata == [] && k.buffer == [d]
    ensures ReadFrom(k, |d|).0 == k.(buffer := [])
    ensures BytesOf(ReadFrom(k, |d|).1) == d && !ReadFrom(k, |d|).1.Failed?
  {
    assert d[..|d|] == d;
    assert ReadFrom(k, |d|) == ReadFrom(Shift(k), |d|);
  }

  /** A chunk from the remote to the caller of Read. */
  lemma Round(s0: State, s: State, bytes: Bytes, d: Bytes) returns (t: State)
    requires Reaches(Step, s0, s) && CaughtUp(s, bytes) && |d| <= 4096
    ensures Reaches(Step, s0, t) && CaughtUp(t, bytes + d)
  {
    t := AgentRound(s0, s, bytes, d);
    ReachesNext(Step, s0, t, TakePacket);
    t := Step(t, TakePacket);
    ReachesNext(Step, s0, t, Deliver);
    t := Step(t, Deliver);
    ReachesNext(Step, s0, t, ReadCall(|d|));
    ReadChunk(t.server.sink, d);
    t := Step(t, ReadCall(|d|));
  }

  lemma {:induction false} Rounds(s0: State, s: State, bytes: Bytes, chunks: seq<Bytes>) returns (t: State)
    requires Reaches(Step, s0, s) && CaughtUp(s, bytes) && forall d | d in chunks :: |d| <= 4096
    ensures Reaches(Step, s0, t) && CaughtUp(t, bytes + Flat(chunks))
    decreases |chunks|
  {
    if chunks == [] {
      t := s;
      assert bytes + Flat(chunks) == bytes;
    } else {
      t := Round(s0, s, bytes, chunks[0]);
      t := Rounds(s0, t, bytes + chunks[0], chunks[1..]);
      assert bytes + Flat(chunks) == bytes + chunks[0] + Flat(chunks[1..]);
    }
  }

  /** The remote ends; cleanup waits until the sender has sent everything. */
  lemma AgentFinish(s0: State, s: State, bytes: Bytes) returns (t: State)
    requires Reaches(Step, s0, s) && CaughtUp(s, bytes)
    ensures Reaches(Step, s0, t) && t.server == s.server && t.agent.up == s.agent.up + [Agent.CleanClose]
    ensures t.agent.inflow.remoteEnded && t.agent.inflow.fromRemote == bytes
  {
    ReachesNext(Step, s0, s, OnAgent(Agent.FromRemote(Agent.ReadEnds)));
    t := CleanUp(s0, Step(s, OnAgent(Agent.FromRemote(Agent.ReadEnds))));
  }

  /** The CLOSE_RSP is taken, and Read reports the end. */
  lemma SeeClose(s0: State, s: State) returns (t: State)
    requires Reaches(Step, s0, s) && s.server.taken < |s.agent.up| && s.agent.up[s.server.taken].CleanClose?
    requires s.server.dispatch.AwaitPacket? && !s.server.ended && s.server.established
    requires s.server.sink == Sink(s.server.sink.maxBuffered, [], [], false, false, None)
    ensures Reaches(Step, s0, t) && t.agent == s.agent && t.server.taken == s.server.taken + 1
    ensures t.server.returned == s.server.returned && t.server.sawEnd == Some(EndOfFile) && !t.server.sink.localClosed
  {
    ReachesNext(Step, s0, s, TakePacket);
    t := Step(s, TakePacket);
    ReachesNext(Step, s0, t, FinishClose);
    t := Step(t, FinishClose);
    ReachesNext(Step, s0, t, ReadCall(1));
    t := Step(t, ReadCall(1));
  }

  /** For every stream of chunks there is a run that ends in order: all its bytes are
      returned, and then the end of the stream. */
  lemma EveryStreamCanBeDelivered(sendCap: nat, dataCap: nat, maxBuffered: nat, chunks: seq<Bytes>)
    requires maxBuffered > 0 && forall d | d in chunks :: |d| <= 4096
    ensures exists actions :: var s := Run(Step, Initial(sendCap, dataCap, maxBuffered), actions);
              && s.agent.inflow.fromRemote == Flat(chunks) == s.server.returned
              && s.server.sawEnd == Some(EndOfFile) && s.server.taken <= |s.agent.up| && Orderly(s)
  {
    var s0 := Initial(sendCap, dataCap, maxBuffered);
    var s := StartUp(sendCap, dataCap, maxBuffered);
    s := Rounds(s0, s, [], chunks);
    s := AgentFinish(s0, s, Flat(chunks));
    s := SeeClose(s0, s);
    var actions :| Run(Step, s0, actions) == s;
  }

  /** When the agent's stream is lost before its CLOSE_RSP was taken, Read reports a plain
      end of file, though bytes that the agent read are missing. */
  lemma LostAgentLooksLikeEnd(sendCap: nat, dataCap: nat, maxBuffered: nat, d: Bytes)
    requires maxBuffered > 0 && 0 < |d| <= 4096
    ensures exists actions :: var s := Run(Step, Initial(sendCap, dataCap, maxBuffered), actions);
              && s.server.sawEnd == Some(EndOfFile) && !s.server.sink.localClosed
              && s.agent.inflow.fromRemote == d && s.server.returned == []
  {
    var s0 := Initial(sendCap, dataCap, maxBuffered);
    var s := StartUp(sendCap, dataCap, maxBuffered);
    s := AgentRound(s0, s, [], d);
    ReachesNext(Step, s0, s, EndLoop);
    s := Step(s, EndLoop);
    ReachesNext(Step, s0, s, LoseConn);
    s := Step(s, LoseConn);
    ReachesNext(Step, s0, s, ReadCall(1));
    s := Step(s, ReadCall(1));
    assert [] + d == d;
    var actions :| Run(Step, s0, actions) == s;
  }

  /** The agent was stopped while its reader held a chunk. */
  lemma StoppedHolding(sendCap: nat, dataCap: nat, maxBuffered: nat, d: Bytes) returns (s: State)
    requires maxBuffered > 0 && 0 < |d| <= 4096
    ensures Reaches(Step, Initial(sendCap, dataCap, maxBuffered), s)
    ensures s.agent.dialer.DialEnded? && s.agent.cleaner.NotCalled? && s.agent.managed && !s.agent.broken
    ensures s.agent.closes == Agent.Signals(1, 0, 0, 0)
    ensures s.agent.inflow.sender.Taking? && s.agent.inflow.queue == [] && s.agent.inflow.fromRemote == d
    ensures s.server == Server(|s.agent.up|, AwaitPacket, false, true,
                               Sink(s.server.sink.maxBuffered, [], [], false, false, None), [], [], None)
  {
    var s0 := Initial(sendCap, dataCap, maxBuffered);
    s := StartUp(sendCap, dataCap, maxBuffered);
    ReachesNext(Step, s0, s, OnAgent(Agent.FromRemote(Agent.Read(d))));
    s := Step(s, OnAgent(Agent.FromRemote(Agent.Read(d))));
    ReachesNext(Step, s0, s, OnAgent(Agent.Stop));
    s := Step(s, OnAgent(Agent.Stop));
    ReachesNext(Step, s0, s, OnAgent(Agent.FromRemote(Agent.StopSeen)));
    s := Step(s, OnAgent(Agent.FromRemote(Agent.StopSeen)));
    assert [] + d == d;
  }

  /** Cleanup of an agent whose reader is leaving with nothing queued. */
  lemma CleanUp(s0: State, s: State) returns (t: State)
    requires Reaches(Step, s0, s) && s.agent.dialer.DialEnded? && s.agent.cleaner.NotCalled? && s.agent.managed
    requires !s.agent.broken && s.agent.closes == Agent.Signals(1, 0, 0, 0)
    requires s.agent.inflow.sender.Taking? && s.agent.inflow.queue == []
    ensures Reaches(Step, s0, t) && t.server == s.server && t.agent.up == s.agent.up + [Agent.CleanClose]
    ensures t.agent.inflow == s.agent.inflow.(sender := Agent.SenderDone)
  {
    t := s;
    ReachesNext(Step, s0, t, OnAgent(Agent.Clean(Agent.Call)));
    t := Step(t, OnAgent(Agent.Clean(Agent.Call)));
    ReachesNext(Step, s0, t, OnAgent(Agent.Clean(Agent.DialSeen)));
    t := Step(t, OnAgent(Agent.Clean(Agent.DialSeen)));
    ReachesNext(Step, s0, t, OnAgent(Agent.Clean(Agent.CloseSendCh)));
    t := Step(t, OnAgent(Agent.Clean(Agent.CloseSendCh)));
    ReachesNext(Step, s0, t, OnAgent(Agent.ToServer(Agent.SeeEnd)));
    t := Step(t, OnAgent(Agent.ToServer(Agent.SeeEnd)));
    ReachesNext(Step, s0, t, OnAgent(Agent.ToServer(Agent.SignalDone)));
    t := Step(t, OnAgent(Agent.ToServer(Agent.SignalDone)));
    ReachesNext(Step, s0, t, OnAgent(Agent.Clean(Agent.SendSeen)));
    t := Step(t, OnAgent(Agent.Clean(Agent.SendSeen)));
    ReachesNext(Step, s0, t, OnAgent(Agent.Clean(Agent.SendClose(true))));
    t := Step(t, OnAgent(Agent.Clean(Agent.SendClose(true))));
  }

  /** When the agent is stopped while its reader holds a chunk, the CLOSE_RSP is sent and
      taken all the same, and Read reports a plain end of file without that chunk. */
  lemma StoppedAgentLooksLikeEnd(sendCap: nat, dataCap: nat, maxBuffered: nat, d: Bytes)
    requires maxBuffered > 0 && 0 < |d| <= 4096
    ensures exists actions :: var s := Run(Step, Initial(sendCap, dataCap, maxBuffered), actions);
              && s.server.sawEnd == Some(EndOfFile) && !s.server.sink.localClosed
              && s.server.taken <= |s.agent.up| && Took(s.agent.up, s.server, Agent.CleanClose)
              && s.agent.inflow.fromRemote == d && s.server.returned == []
  {
    var s0 := Initial(sendCap, dataCap, maxBuffered);
    var s := StoppedHolding(sendCap, dataCap, maxBuffered, d);
    s := CleanUp(s0, s);
    s := SeeClose(s0, s);
    assert s.agent.up[..s.server.taken] == s.agent.up;
    var actions :| Run(Step, s0, actions) == s;
  }
}
