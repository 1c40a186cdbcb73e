/** An HTTP-CONNECT frontend: the hijacked socket, the bounded queue between Send and
    the goroutine that writes the socket, and the ways in which the stream is closed. */
module HttpConnect {
  import opened Bytes
  import opened Options
  import opened Runs

  datatype Packet = Data(data: Bytes) | CloseRsp

  // Sends are serialized, DATA follows a successful DIAL_RSP, and a socket on which a
  // write failed keeps failing. How often DIAL_RSP is sent is left open.

  /** Send: writing the response to CONNECT, waiting for room in the queue, about to
      update the queue's metric, writing the socket itself where there is no queue,
      in close(). */
  datatype Sender =
    | Idle | Answering(rest: Bytes) | Waiting(packet: Packet) | Noting | SyncWriting(rest: Bytes) | InClose

  /** serveFrontendWrites. */
  datatype Writer = NotStarted | Taking | Took(packet: Packet) | Writing(rest: Bytes) | Stopping(cause: Cause) | Done

  /** Why the stream was closed. Ordered is by the CLOSE_RSP accepted as packet number
      `at`; whole, if no byte had been lost to a failed write by then. */
  datatype Cause = Ordered(at: nat, whole: bool) | WriteFailed | SawClosed | Aborted | DialFailed

  /** close(), run once: the metric is stopped, the channel closed, the socket closed. */
  datatype Closing = Open | MetricStopped | ChannelClosed | SocketClosed

  /** The response to CONNECT: none yet, the handshake, or an error. */
  datatype Reply = NoReply | Offered | Refused(response: Bytes)

  /** The bytes. */
  datatype Flow = Flow(
    cap: nat,                             // of the queue; 0 for none
    handshake: Bytes, reply: Reply,
    accepted: seq<Packet>, taken: nat,    // the queue is accepted[taken..]
    carried: Bytes,                       // what was written to the socket
    lost: Bytes, broken: bool)            // what was not, because a write failed

  /** The full-queue gauge, as far as this stream contributes to it. */
  datatype Gauge = Gauge(full: bool, stopped: bool, value: int)

  datatype State = State(
    sender: Sender, writer: Writer, closing: Closing, cause: Option<Cause>, flow: Flow, gauge: Gauge,
    // history
    answers: nat,                         // how often DIAL_RSP was sent
    connected: nat)                       // how often the channel `connected` was closed

  datatype SendOp =
    | DialOk | DialError(response: Bytes) | AnswerSome(n: nat) | AnswerEnds(ok: bool)
    | SendData(data: Bytes) | SendClose | Enqueue | GiveUp | NoteSender
    | SyncSome(n: nat) | SyncEnds(ok: bool) | CloseSeen

  datatype WriteOp = TakePacket | NoteWriter | WriteSome(n: nat) | WriteEnds(ok: bool) | SeeClosed | StopWriter

  datatype Action = Send(sendOp: SendOp) | Write(writeOp: WriteOp) | Abort | ProceedClose

  function Initial(queueSize: int, handshake: Bytes): State {
    State(Idle, NotStarted, Open, None,
          Flow(if queueSize < 0 then 10 else queueSize, handshake, NoReply, [], 0, [], [], false),
          Gauge(false, false, 0), 0, 0)
  }

  // ----- The socket -----

  /** Some bytes go out. */
  function Carry(f: Flow, data: Bytes): Flow { f.(carried := f.carried + data) }

  /** A write fails: its rest is lost. */
  function Lose(f: Flow, rest: Bytes): Flow { f.(lost := f.lost + rest, broken := true) }

  predicate Writable(s: State) { !s.flow.broken && !s.closing.SocketClosed? }

  function AcceptPacket(f: Flow, p: Packet): Flow { f.(accepted := f.accepted + [p]) }

  // ----- Closing -----

  function StopGauge(g: Gauge): Gauge {
    if g.stopped then g else Gauge(false, true, if g.full then g.value - 1 else g.value)
  }

  /** updateFrontendWriteQueueMetric, for a queue of this length. */
  function Note(g: Gauge, length: nat, cap: nat): Gauge {
    var full := length == cap;
    if g.stopped || g.full == full then g
    else Gauge(full, false, if full then g.value + 1 else g.value - 1)
  }

  function Length(f: Flow): nat { if f.taken <= |f.accepted| then |f.accepted| - f.taken else 0 }

  function BeginClose(s: State, cause: Cause): State {
    if s.closing.Open? then s.(closing := MetricStopped, cause := Some(cause), gauge := StopGauge(s.gauge)) else s
  }

  predicate ChannelIsClosed(s: State) { s.closing.ChannelClosed? || s.closing.SocketClosed? }

  // ----- Steps -----

  function SendStep(s: State, op: SendOp): State {
    match op
    case DialOk =>
      if s.sender.Idle?
      then s.(sender := Answering(s.flow.handshake), flow := s.flow.(reply := Offered), answers := s.answers + 1) else s
    case DialError(response) =>
      if s.sender.Idle?
      then s.(sender := Answering(response), flow := s.flow.(reply := Refused(response)), answers := s.answers + 1)
      else s
    case AnswerSome(n) =>
      if s.sender.Answering? && Writable(s) && n <= |s.sender.rest|
      then s.(sender := Answering(s.sender.rest[n..]), flow := Carry(s.flow, s.sender.rest[..n])) else s
    case AnswerEnds(ok) =>
      if !s.sender.Answering? || (ok && !Writable(s)) then s
      else
        var flow := if ok then Carry(s.flow, s.sender.rest) else Lose(s.flow, s.sender.rest);
        if ok && s.flow.reply.Offered?
        then s.(sender := Idle, flow := flow, connected := s.connected + 1,
                writer := if s.flow.cap > 0 then Taking else NotStarted)
        else BeginClose(s.(flow := flow), DialFailed).(sender := InClose)
    case SendData(data) =>
      if !s.sender.Idle? || s.connected == 0 then s
      else if s.flow.cap > 0 then (if ChannelIsClosed(s) then s else s.(sender := Waiting(Data(data))))
      else s.(sender := SyncWriting(data), flow := AcceptPacket(s.flow, Data(data)).(taken := s.flow.taken + 1))
    case SendClose =>
      if !s.sender.Idle? then s
      else if s.connected == 0 then BeginClose(s, DialFailed).(sender := InClose)
      else if s.flow.cap > 0 then (if ChannelIsClosed(s) then s else s.(sender := Waiting(CloseRsp)))
      else BeginClose(s.(flow := AcceptPacket(s.flow, CloseRsp).(taken := s.flow.taken + 1)),
                      Ordered(|s.flow.accepted|, s.flow.lost == [])).(sender := InClose)
    case Enqueue =>
      if s.sender.Waiting? && Length(s.flow) < s.flow.cap
      then s.(sender := Noting, flow := AcceptPacket(s.flow, s.sender.packet)) else s
    case GiveUp => if s.sender.Waiting? && ChannelIsClosed(s) then s.(sender := Idle) else s
    case NoteSender =>
      if s.sender.Noting? then s.(sender := Idle, gauge := Note(s.gauge, Length(s.flow), s.flow.cap)) else s
    case SyncSome(n) =>
      if s.sender.SyncWriting? && Writable(s) && n <= |s.sender.rest|
      then s.(sender := SyncWriting(s.sender.rest[n..]), flow := Carry(s.flow, s.sender.rest[..n])) else s
    case SyncEnds(ok) =>
      if !s.sender.SyncWriting? || (ok && !Writable(s)) then s
      else s.(sender := Idle, flow := if ok then Carry(s.flow, s.sender.rest) else Lose(s.flow, s.sender.rest))
    case CloseSeen => if s.sender.InClose? && s.closing.SocketClosed? then s.(sender := Idle) else s
  }

  function WriteStep(s: State, op: WriteOp): State {
    match op
    case TakePacket =>
      if s.writer.Taking? && s.flow.taken < |s.flow.accepted|
      then s.(writer := Took(s.flow.accepted[s.flow.taken]), flow := s.flow.(taken := s.flow.taken + 1)) else s
    case NoteWriter =>
      if s.writer.Took?
      then s.(gauge := Note(s.gauge, Length(s.flow), s.flow.cap),
              writer := match s.writer.packet
                        case Data(data) => Writing(data)
                        case CloseRsp => Stopping(Ordered(if s.flow.taken > 0 then s.flow.taken - 1 else 0, true)))
      else s
    case WriteSome(n) =>
      if s.writer.Writing? && Writable(s) && n <= |s.writer.rest|
      then s.(writer := Writing(s.writer.rest[n..]), flow := Carry(s.flow, s.writer.rest[..n])) else s
    case WriteEnds(ok) =>
      if !s.writer.Writing? || (ok && !Writable(s)) then s
      else if ok then s.(writer := Taking, flow := Carry(s.flow, s.writer.rest))
      else s.(writer := Stopping(WriteFailed), flow := Lose(s.flow, s.writer.rest))
    case SeeClosed => if s.writer.Taking? && ChannelIsClosed(s) then s.(writer := Stopping(SawClosed)) else s
    case StopWriter => if s.writer.Stopping? then BeginClose(s, s.writer.cause).(writer := Done) else s
  }

  function Step(s: State, a: Action): State {
    match a
    case Send(op) => SendStep(s, op)
    case Write(op) => WriteStep(s, op)
    case Abort => BeginClose(s, Aborted)
    case ProceedClose =>
      match s.closing
      case MetricStopped => s.(closing := ChannelClosed)
      case ChannelClosed => s.(closing := SocketClosed)
      case _ => s
  }

  // ----- What every interleaving keeps -----

  function DataOf(p: Packet): Bytes { if p.Data? then p.data else [] }

  /** The bytes of the DATA packets, in order. */
  function Contents(packets: seq<Packet>): Bytes { Payload(DataOf, packets) }

  function Response(f: Flow): Bytes {
    match f.reply
    case NoReply => []
    case Offered => f.handshake
    case Refused(response) => response
  }

  /** The response, and the DATA taken for writing. */
  function Promise(f: Flow): Bytes
    requires f.taken <= |f.accepted|
  {
    Response(f) + Contents(f.accepted[..f.taken])
  }

  /** What is being written. */
  function Hand(sender: Sender, writer: Writer): Bytes {
    match writer
    case Took(p) => DataOf(p)
    case Writing(rest) => rest
    case _ => if sender.Answering? || sender.SyncWriting? then sender.rest else []
  }

  /** Every byte promised was written, or is being written, or was lost. */
  ghost predicate FlowInv(f: Flow, hand: Bytes) {
    && f.taken <= |f.accepted|
    && (f.cap == 0 ==> f.taken == |f.accepted|)
    && f.carried + (f.lost + hand) == Promise(f)
    && (f.lost != [] ==> f.broken)
  }

  predicate AtWork(w: Writer) { w.Taking? || w.Took? || w.Writing? || (w.Stopping? && w.cause.Ordered?) }

  ghost predicate ControlInv(s: State) {
    && s.connected <= s.answers <= 1 && (s.answers == 0 <==> s.flow.reply.NoReply?)
    && (s.connected == 1 ==> s.flow.reply.Offered? && !s.sender.Answering?)
    && (s.writer.NotStarted? <==> s.connected == 0 || s.flow.cap == 0)
    && (s.sender.Answering? ==> !s.flow.reply.NoReply?)
    && (s.sender.SyncWriting? ==> s.connected == 1 && s.flow.cap == 0)
    && (s.sender.Waiting? || s.flow.accepted != [] ==> s.connected == 1)
    && (s.sender.Waiting? || s.sender.Noting? ==> s.flow.cap > 0)
    && (AtWork(s.writer) ==> !s.flow.broken)
    && (s.writer.Took? ==> 0 < s.flow.taken <= |s.flow.accepted|
                           && s.flow.accepted[s.flow.taken - 1] == s.writer.packet)
  }

  /** The CLOSE_RSP number `at` closed the stream after everything before it went out,
      and nothing goes out any more. */
  ghost predicate ClosedInOrder(s: State, at: nat, whole: bool) {
    && at < |s.flow.accepted| && s.flow.accepted[at].CloseRsp?
    && (s.flow.cap > 0 ==> whole)
    && (whole <==> s.flow.carried == Response(s.flow) + Contents(s.flow.accepted[..at]))
    && (!whole ==> s.flow.lost != [])
    && !s.writer.Taking? && !s.writer.Took? && !s.writer.Writing? && SenderQuiet(s)
  }

  /** Send writes nothing, and cannot. */
  predicate SenderQuiet(s: State) {
    !s.sender.Answering? && (s.sender.SyncWriting? || (s.flow.cap == 0 && s.sender.Idle?) ==> s.closing.SocketClosed?)
  }

  ghost predicate CauseInv(s: State) {
    && (s.closing.Open? <==> s.cause.None?)
    && (s.sender.InClose? ==> !s.closing.Open?)
    && (s.cause.Some? && s.cause.value.Ordered? ==> ClosedInOrder(s, s.cause.value.at, s.cause.value.whole))
    && (s.writer.Stopping? && s.writer.cause.Ordered? ==>
          s.writer.cause.whole && ClosedInOrder(s, s.writer.cause.at, true))
  }

  /** The gauge counts this stream if its queue is known to be full; what is known is
      right unless an update is under way; and a closed stream is not counted. */
  ghost predicate GaugeInv(s: State) {
    && s.gauge.value == (if s.gauge.full then 1 else 0)
    && (s.gauge.stopped <==> !s.closing.Open?)
    && (s.gauge.stopped ==> !s.gauge.full)
    && (s.flow.cap > 0 && !s.gauge.stopped && !s.sender.Noting? && !s.writer.Took? ==>
          s.gauge.full == (Length(s.flow) == s.flow.cap))
    && Length(s.flow) <= s.flow.cap
  }

  ghost predicate Inv(s: State) {
    ControlInv(s) && FlowInv(s.flow, Hand(s.sender, s.writer)) && CauseInv(s) && GaugeInv(s)
  }

  /** As long as DIAL_RSP was sent at most once. */
  ghost predicate InvIfOnce(s: State) { s.answers <= 1 ==> Inv(s) }

  // ----- The bytes -----

  lemma CarryKeepsFlow(f: Flow, data: Bytes, rest: Bytes)
    requires FlowInv(f, data + rest) && !f.broken
    ensures FlowInv(Carry(f, data), rest)
  {
    assert f.lost == [];
    assert f.carried + (f.lost + (data + rest)) == f.carried + data + (f.lost + rest);
  }

  lemma CarryAllKeepsFlow(f: Flow, data: Bytes)
    requires FlowInv(f, data) && !f.broken
    ensures FlowInv(Carry(f, data), [])
  {
    assert data + [] == data;
    CarryKeepsFlow(f, data, []);
  }

  lemma CarrySomeKeepsFlow(f: Flow, data: Bytes, n: nat)
    requires FlowInv(f, data) && !f.broken && n <= |data|
    ensures FlowInv(Carry(f, data[..n]), data[n..])
  {
    assert data[..n] + data[n..] == data;
    CarryKeepsFlow(f, data[..n], data[n..]);
  }

  lemma LoseKeepsFlow(f: Flow, rest: Bytes)
    requires FlowInv(f, rest)
    ensures FlowInv(Lose(f, rest), [])
  {
    assert f.lost + rest + [] == f.lost + rest;
  }

  lemma Longer(carried: Bytes, lost: Bytes, response: Bytes, payload: Bytes, d: Bytes)
    requires carried + (lost + []) == response + payload
    ensures carried + (lost + d) == response + (payload + d)
  {
    assert carried + (lost + d) == carried + (lost + []) + d;
  }

  lemma TakeKeepsFlow(f: Flow)
    requires FlowInv(f, []) && f.taken < |f.accepted|
    ensures var p := f.accepted[f.taken]; FlowInv(f.(taken := f.taken + 1), DataOf(p))
  {
    var p := f.accepted[f.taken];
    assert f.accepted[..f.taken + 1] == f.accepted[..f.taken] + [p];
    PayloadAppend(DataOf, f.accepted[..f.taken], p);
    Longer(f.carried, f.lost, Response(f), Contents(f.accepted[..f.taken]), DataOf(p));
  }

  lemma AcceptKeepsFlow(f: Flow, p: Packet, hand: Bytes)
    requires FlowInv(f, hand) && f.cap > 0
    ensures FlowInv(AcceptPacket(f, p), hand)
  {
    assert (f.accepted + [p])[..f.taken] == f.accepted[..f.taken];
  }

  lemma SyncAcceptKeepsFlow(f: Flow, p: Packet)
    requires FlowInv(f, []) && f.cap == 0
    ensures FlowInv(AcceptPacket(f, p).(taken := f.taken + 1), DataOf(p))
  {
    assert f.accepted[..f.taken] == f.accepted && (f.accepted + [p])[..f.taken + 1] == f.accepted + [p];
    PayloadAppend(DataOf, f.accepted, p);
    Longer(f.carried, f.lost, Response(f), Contents(f.accepted), DataOf(p));
  }

  lemma OfferKeepsFlow(f: Flow, reply: Reply, response: Bytes)
    requires FlowInv(f, []) && f.reply.NoReply? && f.accepted == [] && !reply.NoReply?
    requires response == Response(f.(reply := reply))
    ensures FlowInv(f.(reply := reply), response)
  {
    assert f.carried == [] && f.lost == [];
  }

  /** The bytes are as they should be. */
  ghost predicate Flowing(s: State) { FlowInv(s.flow, Hand(s.sender, s.writer)) }

  lemma DialKeepsFlow(s: State, op: SendOp)
    requires (op.DialOk? || op.DialError?) && SendStep(s, op).answers <= 1 && ControlInv(s) && Flowing(s)
    ensures Flowing(SendStep(s, op))
  {
    if s.sender.Idle? {
      match op
      case DialOk => OfferKeepsFlow(s.flow, Offered, s.flow.handshake);
      case DialError(response) => OfferKeepsFlow(s.flow, Refused(response), response);
    }
  }

  lemma AnswerKeepsFlow(s: State, op: SendOp)
    requires (op.AnswerSome? || op.AnswerEnds?) && SendStep(s, op) != s && ControlInv(s) && Flowing(s)
    ensures Flowing(SendStep(s, op))
  {
    match op
    case AnswerSome(n) => CarrySomeKeepsFlow(s.flow, s.sender.rest, n);
    case AnswerEnds(ok) =>
      if ok { CarryAllKeepsFlow(s.flow, s.sender.rest); } else { LoseKeepsFlow(s.flow, s.sender.rest); }
  }

  lemma SyncKeepsFlow(s: State, op: SendOp)
    requires (op.SyncSome? || op.SyncEnds?) && SendStep(s, op) != s && ControlInv(s) && Flowing(s)
    ensures Flowing(SendStep(s, op))
  {
    match op
    case SyncSome(n) => CarrySomeKeepsFlow(s.flow, s.sender.rest, n);
    case SyncEnds(ok) =>
      if ok { CarryAllKeepsFlow(s.flow, s.sender.rest); } else { LoseKeepsFlow(s.flow, s.sender.rest); }
  }

  lemma QueueKeepsFlow(s: State, op: SendOp)
    requires (op.SendData? || op.SendClose? || op.Enqueue?) && SendStep(s, op) != s && ControlInv(s) && Flowing(s)
    ensures Flowing(SendStep(s, op))
  {
    match op
    case SendData(data) => if s.flow.cap == 0 { SyncAcceptKeepsFlow(s.flow, Data(data)); }
    case SendClose => if s.flow.cap == 0 { SyncAcceptKeepsFlow(s.flow, CloseRsp); }
    case Enqueue => AcceptKeepsFlow(s.flow, s.sender.packet, Hand(s.sender, s.writer));
  }

  lemma SendKeepsFlow(s: State, op: SendOp)
    requires SendStep(s, op).answers <= 1 && ControlInv(s) && Flowing(s)
    ensures Flowing(SendStep(s, op))
  {
    if SendStep(s, op) != s {
      if op.DialOk? || op.DialError? { DialKeepsFlow(s, op); }
      else if op.AnswerSome? || op.AnswerEnds? { AnswerKeepsFlow(s, op); }
      else if op.SyncSome? || op.SyncEnds? { SyncKeepsFlow(s, op); }
      else if op.SendData? || op.SendClose? || op.Enqueue? { QueueKeepsFlow(s, op); }
    }
  }

  lemma WriteKeepsFlow(s: State, op: WriteOp)
    requires ControlInv(s) && FlowInv(s.flow, Hand(s.sender, s.writer))
    ensures FlowInv(WriteStep(s, op).flow, Hand(WriteStep(s, op).sender, WriteStep(s, op).writer))
  {
    var t := WriteStep(s, op);
    if t == s { return; }
    match op
    case TakePacket => TakeKeepsFlow(s.flow);
    case WriteSome(n) => CarrySomeKeepsFlow(s.flow, s.writer.rest, n);
    case WriteEnds(ok) =>
      if ok { CarryAllKeepsFlow(s.flow, s.writer.rest); } else { LoseKeepsFlow(s.flow, s.writer.rest); }
    case _ =>
  }

  // ----- Control -----

  lemma AnswerKeepsControl(s: State, ok: bool)
    requires ControlInv(s)
    ensures ControlInv(SendStep(s, AnswerEnds(ok)))
  {}

  lemma SendDataKeepsControl(s: State, data: Bytes)
    requires ControlInv(s)
    ensures ControlInv(SendStep(s, SendData(data)))
  {}

  lemma SendCloseKeepsControl(s: State)
    requires ControlInv(s)
    ensures ControlInv(SendStep(s, SendClose))
  {}

  lemma SyncKeepsControl(s: State, n: nat, ok: bool)
    requires ControlInv(s)
    ensures ControlInv(SendStep(s, SyncSome(n))) && ControlInv(SendStep(s, SyncEnds(ok)))
  {}

  lemma SendKeepsControl(s: State, op: SendOp)
    requires SendStep(s, op).answers <= 1 && ControlInv(s)
    ensures ControlInv(SendStep(s, op))
  {
    match op
    case AnswerEnds(ok) => AnswerKeepsControl(s, ok);
    case SendData(data) => SendDataKeepsControl(s, data);
    case SendClose => SendCloseKeepsControl(s);
    case SyncSome(n) => SyncKeepsControl(s, n, true);
    case SyncEnds(ok) => SyncKeepsControl(s, 0, ok);
    case _ =>
  }

  lemma WriteKeepsControl(s: State, op: WriteOp)
    requires ControlInv(s) && FlowInv(s.flow, Hand(s.sender, s.writer))
    ensures ControlInv(WriteStep(s, op))
  {}

  // ----- The gauge -----

  lemma SendKeepsGauge(s: State, op: SendOp)
    requires ControlInv(s) && FlowInv(s.flow, Hand(s.sender, s.writer)) && GaugeInv(s)
    ensures GaugeInv(SendStep(s, op))
  {}

  lemma WriteKeepsGauge(s: State, op: WriteOp)
    requires ControlInv(s) && FlowInv(s.flow, Hand(s.sender, s.writer)) && GaugeInv(s)
    ensures GaugeInv(WriteStep(s, op))
  {}

  // ----- Causes -----

  ghost predicate IsOrdered(s: State) {
    (s.cause.Some? && s.cause.value.Ordered?) || (s.writer.Stopping? && s.writer.cause.Ordered?)
  }

  /** A step that writes nothing and takes back nothing. */
  lemma QuietKeepsCause(s: State, t: State)
    requires CauseInv(s) && t.cause == s.cause && t.closing == s.closing && t.writer == s.writer
    requires t.sender.InClose? ==> !t.closing.Open?
    requires IsOrdered(s) ==> t.flow.carried == s.flow.carried && t.flow.cap == s.flow.cap
                              && Response(t.flow) == Response(s.flow)
    requires IsOrdered(s) ==> s.flow.accepted <= t.flow.accepted && (SenderQuiet(s) ==> SenderQuiet(t))
    requires IsOrdered(s) && s.flow.lost != [] ==> t.flow.lost != []
    ensures CauseInv(t)
  {
    if IsOrdered(s) {
      assert forall k | 0 <= k <= |s.flow.accepted| :: t.flow.accepted[..k] == s.flow.accepted[..k];
    }
  }

  /** CLOSE_RSP where there is no queue. */
  lemma SyncCloseKeepsCause(s: State)
    requires Inv(s) && s.sender.Idle? && s.connected == 1 && s.flow.cap == 0
    ensures CauseInv(SendStep(s, SendClose))
  {
    var f := s.flow;
    var t := s.(flow := AcceptPacket(f, CloseRsp).(taken := f.taken + 1), sender := InClose);
    if s.closing.Open? {
      assert f.accepted[..f.taken] == f.accepted;
      assert t.flow.accepted[..|f.accepted|] == f.accepted;
      assert f.lost == [] ==> f.carried + (f.lost + []) == f.carried;
    } else {
      QuietKeepsCause(s, t);
    }
  }

  lemma AnswerEndsKeepsCause(s: State, ok: bool)
    requires Inv(s) && s.sender.Answering?
    ensures CauseInv(SendStep(s, AnswerEnds(ok)))
  {
    assert !IsOrdered(s);
  }

  lemma DialKeepsCause(s: State, op: SendOp)
    requires (op.DialOk? || op.DialError? || op.AnswerSome?) && SendStep(s, op).answers <= 1 && Inv(s)
    ensures CauseInv(SendStep(s, op))
  {
    assert s.sender.Answering? || s.answers == 0 || SendStep(s, op) == s;
    QuietKeepsCause(s, SendStep(s, op));
  }

  lemma SyncKeepsCause(s: State, op: SendOp)
    requires (op.SendData? || op.SyncSome? || op.SyncEnds?) && Inv(s)
    ensures CauseInv(SendStep(s, op))
  {
    QuietKeepsCause(s, SendStep(s, op));
  }

  lemma QueueKeepsCause(s: State, op: SendOp)
    requires (op.Enqueue? || op.GiveUp? || op.NoteSender? || op.CloseSeen?) && Inv(s)
    ensures CauseInv(SendStep(s, op))
  {
    QuietKeepsCause(s, SendStep(s, op));
  }

  lemma SendCloseKeepsCause(s: State)
    requires Inv(s)
    ensures CauseInv(SendStep(s, SendClose))
  {
    if s.sender.Idle? && s.connected == 1 && s.flow.cap == 0 { SyncCloseKeepsCause(s); }
  }

  lemma SendKeepsCause(s: State, op: SendOp)
    requires SendStep(s, op).answers <= 1 && Inv(s)
    ensures CauseInv(SendStep(s, op))
  {
    if op.DialOk? || op.DialError? || op.AnswerSome? { DialKeepsCause(s, op); }
    else if op.AnswerEnds? { if s.sender.Answering? { AnswerEndsKeepsCause(s, op.ok); } }
    else if op.SendClose? { SendCloseKeepsCause(s); }
    else if op.SendData? || op.SyncSome? || op.SyncEnds? { SyncKeepsCause(s, op); }
    else { QueueKeepsCause(s, op); }
  }

  /** The writer comes to the CLOSE_RSP: everything before it went out. */
  lemma TookCloseKeepsCause(s: State)
    requires Inv(s) && s.writer == Took(CloseRsp)
    ensures CauseInv(WriteStep(s, NoteWriter))
  {
    var f := s.flow;
    var before := f.accepted[..f.taken - 1];
    assert f.accepted[..f.taken] == before + [CloseRsp];
    PayloadAppend(DataOf, before, CloseRsp);
    assert f.carried + (f.lost + []) == f.carried;
  }

  lemma WriteKeepsCause(s: State, op: WriteOp)
    requires Inv(s)
    ensures CauseInv(WriteStep(s, op))
  {
    match op
    case NoteWriter => if s.writer == Took(CloseRsp) { TookCloseKeepsCause(s); }
    case StopWriter =>
    case _ =>
  }

  // ----- Every step keeps the invariant -----

  lemma CloseStepsKeepInv(s: State, a: Action)
    requires Inv(s) && (a.Abort? || a.ProceedClose?)
    ensures Inv(Step(s, a))
  {}

  lemma StepKeepsInv(s: State, a: Action)
    requires InvIfOnce(s)
    ensures InvIfOnce(Step(s, a))
  {
    if Step(s, a).answers <= 1 {
      match a
      case Send(op) =>
        SendKeepsControl(s, op);
        SendKeepsFlow(s, op);
        SendKeepsGauge(s, op);
        SendKeepsCause(s, op);
      case Write(op) =>
        WriteKeepsControl(s, op);
        WriteKeepsFlow(s, op);
        WriteKeepsGauge(s, op);
        WriteKeepsCause(s, op);
      case Abort => CloseStepsKeepInv(s, a);
      case ProceedClose => CloseStepsKeepInv(s, a);
    }
  }

  lemma Always(queueSize: int, handshake: Bytes, actions: seq<Action>)
    ensures InvIfOnce(Run(Step, Initial(queueSize, handshake), actions))
  {
    forall t, a | InvIfOnce(t) ensures InvIfOnce(Step(t, a)) { StepKeepsInv(t, a); }
    Invariance(Step, InvIfOnce, Initial(queueSize, handshake), actions);
  }

  // ----- The theorems -----

  /** In every interleaving with at most one DIAL_RSP the socket carries a prefix of the
      response to CONNECT followed by the DATA in order, with or without a queue; and
      the channel `connected` is closed at most once. */
  lemma SocketCarriesPrefix(queueSize: int, handshake: Bytes, actions: seq<Action>)
    ensures var s := Run(Step, Initial(queueSize, handshake), actions);
            s.answers <= 1 ==>
              && s.flow.carried <= Response(s.flow) + Contents(s.flow.accepted)
              && (s.flow.accepted != [] ==> s.flow.reply.Offered?)
              && s.connected <= 1
  {
    Always(queueSize, handshake, actions);
    var s := Run(Step, Initial(queueSize, handshake), actions);
    if s.answers <= 1 {
      var f := s.flow;
      PayloadOfPrefix(DataOf, f.accepted, f.taken);
      assert f.carried <= Response(f) + Contents(f.accepted[..f.taken]);
      PrefixOfLonger(f.carried, Response(f), Contents(f.accepted[..f.taken]), Contents(f.accepted));
    }
  }

  /** A second successful DIAL_RSP would close the channel twice. */
  lemma TwoAnswersCloseTwice(queueSize: int, handshake: Bytes)
    ensures exists actions :: Run(Step, Initial(queueSize, handshake), actions).connected == 2
  {
    var s0 := Initial(queueSize, handshake);
    ReachesSelf(Step, s0);
    var s := s0;
    ReachesNext(Step, s0, s, Send(DialOk));
    s := Step(s, Send(DialOk));
    ReachesNext(Step, s0, s, Send(AnswerEnds(true)));
    s := Step(s, Send(AnswerEnds(true)));
    ReachesNext(Step, s0, s, Send(DialOk));
    s := Step(s, Send(DialOk));
    ReachesNext(Step, s0, s, Send(AnswerEnds(true)));
    s := Step(s, Send(AnswerEnds(true)));
    var actions :| Run(Step, s0, actions) == s;
  }

  /** In every interleaving with at most one DIAL_RSP, a stream that a CLOSE_RSP closed in
      order carried the handshake and all DATA accepted before that CLOSE_RSP if and only
      if no byte had been lost to a failed write by then. With a queue none ever has. */
  lemma OrderedCloseComesAfterAllData(queueSize: int, handshake: Bytes, actions: seq<Action>)
    ensures var s := Run(Step, Initial(queueSize, handshake), actions);
            s.answers <= 1 && s.cause.Some? && s.cause.value.Ordered? ==>
              var at, whole := s.cause.value.at, s.cause.value.whole;
              && at < |s.flow.accepted| && s.flow.accepted[at].CloseRsp?
              && (whole <==> s.flow.carried == handshake + Contents(s.flow.accepted[..at]))
              && (queueSize != 0 ==> whole)
              && (!whole ==> s.flow.broken && s.flow.lost != [])
  {
    Always(queueSize, handshake, actions);
    ParametersStay(queueSize, handshake, actions);
  }

  /** Without a queue a write can fail and the stream still be closed in order: the
      socket then carries the handshake and not the DATA. */
  lemma FailedWriteThenOrderedClose(handshake: Bytes, d: Bytes)
    requires d != []
    ensures exists actions :: var s := Run(Step, Initial(0, handshake), actions);
              && s.answers == 1 && s.cause == Some(Ordered(1, false))
              && s.flow.accepted == [Data(d), CloseRsp] && s.flow.carried == handshake
  {
    var s0 := Initial(0, handshake);
    ReachesSelf(Step, s0);
    var s := s0;
    ReachesNext(Step, s0, s, Send(DialOk));
    s := Step(s, Send(DialOk));
    ReachesNext(Step, s0, s, Send(AnswerEnds(true)));
    s := Step(s, Send(AnswerEnds(true)));
    ReachesNext(Step, s0, s, Send(SendData(d)));
    s := Step(s, Send(SendData(d)));
    ReachesNext(Step, s0, s, Send(SyncEnds(false)));
    s := Step(s, Send(SyncEnds(false)));
    ReachesNext(Step, s0, s, Send(SendClose));
    s := Step(s, Send(SendClose));
    var actions :| Run(Step, s0, actions) == s;
  }

  lemma ParametersStay(queueSize: int, handshake: Bytes, actions: seq<Action>)
    ensures var f := Run(Step, Initial(queueSize, handshake), actions).flow;
            f.handshake == handshake && f.cap == Initial(queueSize, handshake).flow.cap
  {
    var f := Initial(queueSize, handshake).flow;
    var same := (t: State) => t.flow.handshake == f.handshake && t.flow.cap == f.cap;
    Invariance(Step, same, Initial(queueSize, handshake), actions);
  }

  /** In every interleaving with at most one DIAL_RSP the stream counts for at most one in
      the gauge of full queues; for none once it is closed; and between updates exactly
      if its queue is full. */
  lemma GaugeCountsFullQueue(queueSize: int, handshake: Bytes, actions: seq<Action>)
    ensures var s := Run(Step, Initial(queueSize, handshake), actions);
            s.answers <= 1 ==>
              && 0 <= s.gauge.value <= 1
              && (!s.closing.Open? ==> s.gauge.value == 0)
              && (s.closing.Open? && s.flow.cap > 0 && !s.sender.Noting? && !s.writer.Took? ==>
                    (s.gauge.value == 1 <==> Length(s.flow) == s.flow.cap))
  {
    Always(queueSize, handshake, actions);
  }

  // ----- Streams do get through -----

  ghost predicate Drained(s: State) {
    && s.sender.Idle? && s.writer.Taking? && s.connected == 1 && s.closing.Open? && s.cause.None?
    && s.flow.cap > 0 && !s.flow.broken && s.flow.taken == |s.flow.accepted| && s.answers == 1
  }

  lemma OneDataGetsThrough(s0: State, s: State, d: Bytes) returns (t: State)
    requires Reaches(Step, s0, s) && Drained(s)
    ensures Reaches(Step, s0, t) && Drained(t) && t.flow.accepted == s.flow.accepted + [Data(d)]
  {
    ReachesNext(Step, s0, s, Send(SendData(d)));
    t := Step(s, Send(SendData(d)));
    ReachesNext(Step, s0, t, Send(Enqueue));
    t := Step(t, Send(Enqueue));
    ReachesNext(Step, s0, t, Send(NoteSender));
    t := Step(t, Send(NoteSender));
    ReachesNext(Step, s0, t, Write(TakePacket));
    t := Step(t, Write(TakePacket));
    ReachesNext(Step, s0, t, Write(NoteWriter));
    t := Step(t, Write(NoteWriter));
    ReachesNext(Step, s0, t, Write(WriteEnds(true)));
    t := Step(t, Write(WriteEnds(true)));
  }

  function Packets(datas: seq<Bytes>): seq<Packet> { seq(|datas|, i requires 0 <= i < |datas| => Data(datas[i])) }

  lemma {:induction false} AllDataGetsThrough(s0: State, s: State, datas: seq<Bytes>) returns (t: State)
    requires Reaches(Step, s0, s) && Drained(s)
    ensures Reaches(Step, s0, t) && Drained(t) && t.flow.accepted == s.flow.accepted + Packets(datas)
    decreases |datas|
  {
    if datas == [] {
      t := s;
    } else {
      t := OneDataGetsThrough(s0, s, datas[0]);
      t := AllDataGetsThrough(s0, t, datas[1..]);
      assert Packets(datas) == [Data(datas[0])] + Packets(datas[1..]);
    }
  }

  lemma CloseGetsThrough(s0: State, s: State) returns (t: State)
    requires Reaches(Step, s0, s) && Drained(s)
    ensures Reaches(Step, s0, t) && t.cause == Some(Ordered(|s.flow.accepted|, true)) && t.answers == 1
    ensures t.flow.accepted == s.flow.accepted + [CloseRsp]
  {
    ReachesNext(Step, s0, s, Send(SendClose));
    t := Step(s, Send(SendClose));
    ReachesNext(Step, s0, t, Send(Enqueue));
    t := Step(t, Send(Enqueue));
    ReachesNext(Step, s0, t, Write(TakePacket));
    t := Step(t, Write(TakePacket));
    ReachesNext(Step, s0, t, Write(NoteWriter));
    t := Step(t, Write(NoteWriter));
    ReachesNext(Step, s0, t, Write(StopWriter));
    t := Step(t, Write(StopWriter));
  }

  lemma Handshake(queueSize: int, handshake: Bytes) returns (t: State)
    requires queueSize != 0
    ensures Reaches(Step, Initial(queueSize, handshake), t) && Drained(t) && t.flow.accepted == []
  {
    var s0 := Initial(queueSize, handshake);
    ReachesSelf(Step, s0);
    ReachesNext(Step, s0, s0, Send(DialOk));
    t := Step(s0, Send(DialOk));
    ReachesNext(Step, s0, t, Send(AnswerEnds(true)));
    t := Step(t, Send(AnswerEnds(true)));
  }

  lemma {:induction false} PayloadOfPackets(datas: seq<Bytes>)
    ensures Contents(Packets(datas)) == Flat(datas)
  {
    if datas != [] {
      var front, last := datas[..|datas| - 1], datas[|datas| - 1];
      PayloadOfPackets(front);
      assert Packets(datas)[..|datas| - 1] == Packets(front);
      FlatAppend(front, last);
      assert front + [last] == datas;
    }
  }

  /** For every sequence of DATA there is a run in which the socket carries the
      handshake and all of it, and is then closed in order. */
  lemma EveryStreamCanBeDelivered(queueSize: int, handshake: Bytes, datas: seq<Bytes>)
    requires queueSize != 0
    ensures exists actions :: var s := Run(Step, Initial(queueSize, handshake), actions);
              && s.flow.carried == handshake + Flat(datas)
              && s.cause.Some? && s.cause.value.Ordered?
  {
    var s0 := Initial(queueSize, handshake);
    var s := Handshake(queueSize, handshake);
    s := AllDataGetsThrough(s0, s, datas);
    s := CloseGetsThrough(s0, s);
    var actions :| Run(Step, s0, actions) == s;
    OrderedCloseComesAfterAllData(queueSize, handshake, actions);
    assert s.flow.accepted[..|datas|] == Packets(datas);
    PayloadOfPackets(datas);
  }
}
