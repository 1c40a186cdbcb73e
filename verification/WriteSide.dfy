/** serverConn, the send side: sequential Write calls, each cutting its bytes into
    DATA packets; the goroutine that sends a packet and may be left behind; closes
    by either end, the write deadline, and the agent stream that may break. */
module WriteSide {
  import opened Bytes
  import opened Options
  import opened Runs

  const MAX_PACKET: nat := 32768

  /** A DATA packet, tagged with the number of the Write call it belongs to. */
  datatype Packet = Packet(call: nat, data: Bytes)

  /** SendContext: before its last look at the context, in the stream's Send, and
      returned. A Send that fails may have got the packet out before the stream broke. */
  datatype Phase = Starting | OnStream | Ended(ok: bool, delivered: bool)

  datatype Sending = Sending(packet: Packet, phase: Phase)

  /** The Write in progress: at the head of its loop, or waiting for its send. */
  datatype Writer =
    | Idle
    | Looping(b: Bytes, n: nat)
    | Waiting(b: Bytes, n: nat, send: Sending)

  /** What a Write returned for the bytes it was given. */
  datatype Result = Result(b: Bytes, n: nat, ok: bool)

  datatype State = State(
    writer: Writer,
    left: seq<Sending>,            // sends left behind by a Write that gave up
    closed: bool, localClosed: bool,
    cancelled: bool,               // the connection's context
    writeErr: bool,
    broken: bool,                  // the agent stream failed, and keeps failing
    calls: nat,
    log: Log)

  /** History. */
  datatype Log = Log(
    results: seq<Result>,
    wire: seq<Packet>,             // what the agent stream carries
    extra: seq<Bytes>,             // what it carries though the Write reported an error
    timedOut: Option<nat>)         // the first Write that timed out during a send

  datatype SendOp = Reach | Abort | Deliver | Fail(delivered: bool)

  datatype Action =
    | StartWrite(b: Bytes) | Check(deadlinePassed: bool)
    | Current(op: SendOp) | Left(i: nat, leftOp: SendOp)
    | SeeResult | SeeCancel | SeeDeadline
    | AgentCloses | CloseCall | Cancel | StreamBreaks

  const INITIAL := State(Idle, [], false, false, false, false, false, 0, Log([], [], [], None))

  function ChunkAt(b: Bytes, n: nat): Bytes
    requires n <= |b|
  {
    b[n..if |b| <= n + MAX_PACKET then |b| else n + MAX_PACKET]
  }

  /** Write returns, leaving a packet on the stream that it did not count, or not. */
  function Return(s: State, r: Result, extra: seq<Bytes>): State {
    s.(writer := Idle, log := s.log.(results := s.log.results + [r], extra := s.log.extra + extra))
  }

  /** The head of Write's loop, and writePacket up to the start of the send. */
  function CheckStep(s: State, b: Bytes, n: nat, deadlinePassed: bool): State
    requires n <= |b|
  {
    if n == |b| then Return(s, Result(b, n, true), [])
    else if s.closed || s.writeErr || deadlinePassed then Return(s, Result(b, n, false), [])
    else s.(writer := StartSend(b, n, s.calls))
  }

  function StartSend(b: Bytes, n: nat, call: nat): Writer
    requires n <= |b|
  {
    Waiting(b, n, Sending(Packet(call, ChunkAt(b, n)), Starting))
  }

  /** The packet of a send, if the stream carries it. */
  function Delivered(g: Sending): seq<Bytes> {
    if g.phase.Ended? && g.phase.delivered then [g.packet.data] else []
  }

  /** The next phase of a send, if it can take this step. */
  function NextPhase(phase: Phase, op: SendOp, cancelled: bool, broken: bool): Option<Phase> {
    match op
    case Reach => if phase.Starting? && !cancelled then Some(OnStream) else None
    case Abort => if phase.Starting? && cancelled then Some(Ended(false, false)) else None
    case Deliver => if phase.OnStream? && !broken then Some(Ended(true, true)) else None
    case Fail(delivered) => if phase.OnStream? && (delivered ==> !broken) then Some(Ended(false, delivered)) else None
  }

  /** The send in progress takes a step. */
  function CurrentStep(s: State, g: Sending, phase: Phase): State
    requires s.writer.Waiting?
  {
    var h := g.(phase := phase);
    s.(writer := s.writer.(send := h), broken := s.broken || (phase.Ended? && !phase.ok && g.phase.OnStream?),
       log := s.log.(wire := if Delivered(h) == [] then s.log.wire else s.log.wire + [h.packet]))
  }

  /** A send left behind takes a step. */
  function LeftStep(s: State, i: nat, phase: Phase): State
    requires i < |s.left|
  {
    var g := s.left[i];
    var h := g.(phase := phase);
    s.(left := s.left[i := h], broken := s.broken || (phase.Ended? && !phase.ok && g.phase.OnStream?),
       log := s.log.(wire := if Delivered(h) == [] then s.log.wire else s.log.wire + [h.packet],
                     extra := s.log.extra + Delivered(h)))
  }

  /** Giving up: the send is left behind, and its context is cancelled. */
  function Abandon(s: State, b: Bytes, n: nat, g: Sending): State {
    Return(s, Result(b, n, false), Delivered(g)).(left := s.left + [g])
  }

  function TimeOut(s: State): State {
    s.(writeErr := true, log := s.log.(timedOut := if s.log.timedOut.None? then Some(s.calls) else s.log.timedOut))
  }

  function Step(s: State, a: Action): State {
    match a
    case StartWrite(b) => if s.writer.Idle? then s.(writer := Looping(b, 0), calls := s.calls + 1) else s
    case Check(deadlinePassed) =>
      if s.writer.Looping? && s.writer.n <= |s.writer.b|
      then CheckStep(s, s.writer.b, s.writer.n, deadlinePassed) else s
    case Current(op) =>
      if !s.writer.Waiting? then s
      else (match NextPhase(s.writer.send.phase, op, s.cancelled, s.broken)
            case None => s
            case Some(phase) => CurrentStep(s, s.writer.send, phase))
    case Left(i, op) =>
      if i >= |s.left| then s
      else (match NextPhase(s.left[i].phase, op, true, s.broken)
            case None => s
            case Some(phase) => LeftStep(s, i, phase))
    case SeeResult =>
      if s.writer.Waiting? && s.writer.send.phase.Ended? then
        if s.writer.send.phase.ok then Counted(s)
        else Return(s, Result(s.writer.b, s.writer.n, false), Delivered(s.writer.send))
      else s
    case SeeCancel => if s.writer.Waiting? && s.cancelled then Abandon(s, s.writer.b, s.writer.n, s.writer.send) else s
    case SeeDeadline => if s.writer.Waiting? then TimeOut(Abandon(s, s.writer.b, s.writer.n, s.writer.send)) else s
    case AgentCloses => s.(closed := true)
    case CloseCall => s.(closed := true, localClosed := true)
    case Cancel => if s.localClosed then s.(cancelled := true) else s
    case StreamBreaks => s.(broken := true)
  }

  // ----- What every interleaving keeps -----

  /** No Write can start another send. */
  predicate Blocked(s: State) { (s.closed || s.writeErr) && !s.writer.Waiting? }

  ghost predicate WriterOk(w: Writer, calls: nat) {
    match w
    case Idle => true
    case Looping(b, n) => n <= |b|
    case Waiting(b, n, g) =>
      && n < |b| && g.packet == Packet(calls, ChunkAt(b, n))
      && (g.phase.Ended? && g.phase.ok ==> g.phase.delivered)
  }

  ghost predicate ControlInv(s: State) {
    && WriterOk(s.writer, s.calls)
    && (s.cancelled ==> s.localClosed) && (s.localClosed ==> s.closed)
    && (s.left != [] ==> |s.left| == 1 && Blocked(s) && PacketOk(s.left[0].packet, s.calls))
    && (s.writer.Waiting? && s.writer.send.phase.Ended? && !s.writer.send.phase.ok ==> s.broken || s.cancelled)
  }

  /** A packet that is on the stream and was not counted is the only one and the
      last: nothing can be delivered any more. */
  ghost predicate ExtraInv(s: State) {
    && |s.log.extra| <= 1
    && (s.log.extra != [] ==> s.broken || (Blocked(s) && (s.left == [] || !s.left[0].phase.OnStream?)))
    && (s.log.extra != [] && s.writer.Waiting? ==> Delivered(s.writer.send) == [])
  }

  ghost predicate PacketOk(p: Packet, calls: nat) { p.call <= calls && 0 < |p.data| <= MAX_PACKET }

  ghost predicate WireInv(s: State) {
    && (forall i | 0 <= i < |s.log.wire| :: PacketOk(s.log.wire[i], s.calls))
    && (s.log.timedOut.Some? ==>
          && s.writeErr && !s.writer.Waiting?
          && (forall i | 0 <= i < |s.log.wire| :: s.log.wire[i].call <= s.log.timedOut.value)
          && (forall i | 0 <= i < |s.left| :: s.left[i].packet.call <= s.log.timedOut.value))
  }

  function DataOf(p: Packet): Bytes { p.data }

  /** What a result reports as written. */
  function Written(r: Result): Bytes { if r.n <= |r.b| then r.b[..r.n] else r.b }

  /** The bytes on the stream, and the bytes that the results report as written. */
  function Wire(log: Log): Bytes { Payload(DataOf, log.wire) }

  function Reported(log: Log): Bytes { Payload(Written, log.results) }

  function Progress(w: Writer): Bytes { if w.Idle? || w.n > |w.b| then [] else w.b[..w.n] }

  /** The packet of the Write in progress, if it is on the stream and not counted yet. */
  function Pending(w: Writer): seq<Bytes> { if w.Waiting? then Delivered(w.send) else [] }

  /** The stream carries what was reported, what the Write in progress has counted, and
      what is not counted yet, or never. */
  ghost predicate LogInv(log: Log, progress: Bytes, pending: seq<Bytes>) {
    Wire(log) == Reported(log) + progress + Flat(log.extra + pending)
  }

  ghost predicate ByteInv(s: State) { LogInv(s.log, Progress(s.writer), Pending(s.writer)) }

  ghost predicate ResultOk(r: Result) { r.n <= |r.b| && (r.ok ==> r.n == |r.b|) }

  ghost predicate ResultsInv(s: State) { forall i | 0 <= i < |s.log.results| :: ResultOk(s.log.results[i]) }

  /** A Write reported an error at the chunk `d`. */
  ghost predicate GivenUp(results: seq<Result>, d: Bytes) {
    exists i :: && 0 <= i < |results| && !results[i].ok && results[i].n < |results[i].b|
                && d == ChunkAt(results[i].b, results[i].n)
  }

  /** The stream ends with `d`. */
  ghost predicate EndsWith(wire: seq<Packet>, d: Bytes) { wire != [] && wire[|wire| - 1].data == d }

  /** What is on the stream and not counted is its last packet; and what never will be
      is the chunk of a Write that reported an error. */
  ghost predicate LastInv(s: State) {
    && (s.log.extra != [] ==> EndsWith(s.log.wire, s.log.extra[0]) && GivenUp(s.log.results, s.log.extra[0]))
    && (Pending(s.writer) != [] ==> EndsWith(s.log.wire, Pending(s.writer)[0]))
    && (s.left != [] ==> GivenUp(s.log.results, s.left[0].packet.data))
  }

  ghost predicate Inv(s: State) {
    ControlInv(s) && ExtraInv(s) && WireInv(s) && ByteInv(s) && ResultsInv(s) && LastInv(s)
  }

  // ----- Bytes -----

  lemma FlatOne(b: Bytes)
    ensures Flat([b]) == b
  {
    assert Flat([b]) == b + Flat([]);
  }

  /** A Write returns, its uncounted packet moving to the extra ones. */
  lemma ReturnKeepsLog(log: Log, r: Result, pending: seq<Bytes>)
    requires LogInv(log, Written(r), pending)
    ensures LogInv(log.(results := log.results + [r], extra := log.extra + pending), [], [])
  {
    var t := log.(results := log.results + [r], extra := log.extra + pending);
    PayloadAppend(Written, log.results, r);
    assert Wire(t) == Wire(log) && t.extra + [] == log.extra + pending;
    assert Reported(t) + [] == Reported(log) + Written(r);
  }

  /** The packet of the Write in progress gets onto the stream. */
  lemma DeliverKeepsLog(log: Log, progress: Bytes, p: Packet)
    requires LogInv(log, progress, [])
    ensures LogInv(log.(wire := log.wire + [p]), progress, [p.data])
  {
    var t := log.(wire := log.wire + [p]);
    PayloadAppend(DataOf, log.wire, p);
    FlatAppend(log.extra, p.data);
    assert log.extra + [] == log.extra && Reported(t) == Reported(log);
    Regroup(Reported(log) + progress, Flat(log.extra), p.data);
  }

  /** The packet of a send left behind gets onto the stream. */
  lemma LeftDeliverKeepsLog(log: Log, progress: Bytes, p: Packet)
    requires LogInv(log, progress, [])
    ensures LogInv(log.(wire := log.wire + [p], extra := log.extra + [p.data]), progress, [])
  {
    var t := log.(wire := log.wire + [p], extra := log.extra + [p.data]);
    DeliverKeepsLog(log, progress, p);
    assert Wire(t) == Wire(log.(wire := log.wire + [p])) && Reported(t) == Reported(log)
           && t.extra + [] == log.extra + [p.data];
  }

  lemma CountKeepsLog(log: Log, progress: Bytes, d: Bytes)
    requires LogInv(log, progress, [d]) && log.extra == []
    ensures LogInv(log, progress + d, [])
  {
    FlatOne(d);
    assert log.extra + [d] == [d] && log.extra + [] == [];
    Regroup(Reported(log), progress, d);
    assert Reported(log) + (progress + d) + Flat([]) == Reported(log) + (progress + d);
  }

  lemma GivenUpStays(results: seq<Result>, r: Result, d: Bytes)
    requires GivenUp(results, d)
    ensures GivenUp(results + [r], d)
  {
    var i :| && 0 <= i < |results| && !results[i].ok && results[i].n < |results[i].b|
             && d == ChunkAt(results[i].b, results[i].n);
    assert (results + [r])[i] == results[i];
  }

  lemma GivenUpNow(results: seq<Result>, r: Result)
    requires !r.ok && r.n < |r.b|
    ensures GivenUp(results + [r], ChunkAt(r.b, r.n))
  {
    assert (results + [r])[|results|] == r;
  }

  // ----- A Write returns -----

  lemma ReturnKeepsBytes(s: State, r: Result)
    requires ByteInv(s) && ResultsInv(s) && !s.writer.Idle? && ResultOk(r) && r.b == s.writer.b && r.n == s.writer.n
    ensures ByteInv(Return(s, r, Pending(s.writer))) && ResultsInv(Return(s, r, Pending(s.writer)))
  {
    assert Progress(s.writer) == Written(r);
    ReturnKeepsLog(s.log, r, Pending(s.writer));
  }

  lemma ReturnKeepsLast(s: State, r: Result)
    requires LastInv(s) && ExtraInv(s) && ControlInv(s) && !s.writer.Idle? && r.b == s.writer.b && r.n == s.writer.n
    requires s.writer.Waiting? ==> !r.ok
    ensures LastInv(Return(s, r, Pending(s.writer)))
    ensures s.writer.Waiting? ==> GivenUp(s.log.results + [r], s.writer.send.packet.data)
  {
    if s.log.extra != [] { GivenUpStays(s.log.results, r, s.log.extra[0]); }
    if s.left != [] { GivenUpStays(s.log.results, r, s.left[0].packet.data); }
    if s.writer.Waiting? { GivenUpNow(s.log.results, r); }
  }

  lemma EarlyReturnKeepsInv(s: State, r: Result)
    requires Inv(s) && s.writer.Looping? && ResultOk(r) && r.b == s.writer.b && r.n == s.writer.n
    ensures Inv(Return(s, r, []))
  {
    ReturnKeepsBytes(s, r);
    ReturnKeepsLast(s, r);
  }

  lemma StartSendKeepsInv(s: State)
    requires Inv(s) && s.writer.Looping? && s.writer.n < |s.writer.b| && !s.closed && !s.writeErr
    ensures Inv(s.(writer := StartSend(s.writer.b, s.writer.n, s.calls)))
  {
    var t := s.(writer := StartSend(s.writer.b, s.writer.n, s.calls));
    assert Progress(t.writer) == Progress(s.writer) && Pending(t.writer) == Pending(s.writer) == [];
  }

  lemma CheckKeepsInv(s: State, deadlinePassed: bool)
    requires Inv(s) && s.writer.Looping?
    ensures Inv(CheckStep(s, s.writer.b, s.writer.n, deadlinePassed))
  {
    var b, n := s.writer.b, s.writer.n;
    if n == |b| {
      EarlyReturnKeepsInv(s, Result(b, n, true));
    } else if s.closed || s.writeErr || deadlinePassed {
      EarlyReturnKeepsInv(s, Result(b, n, false));
    } else {
      StartSendKeepsInv(s);
    }
  }

  // ----- Sends -----

  /** The send in progress moves on without its packet getting onto the stream. */
  lemma QuietCurrentKeepsInv(s: State, phase: Phase)
    requires Inv(s) && s.writer.Waiting? && !s.writer.send.phase.Ended?
    requires phase == OnStream || (phase == Ended(false, false) && (s.writer.send.phase.OnStream? || s.cancelled))
    ensures Inv(CurrentStep(s, s.writer.send, phase))
  {
    var t := CurrentStep(s, s.writer.send, phase);
    assert Progress(t.writer) == Progress(s.writer) && Pending(t.writer) == Pending(s.writer) == [] && t.log == s.log;
  }

  lemma DeliverCurrentKeepsBytes(s: State, phase: Phase)
    requires ByteInv(s) && s.writer.Waiting? && s.writer.send.phase.OnStream? && phase.Ended? && phase.delivered
    ensures ByteInv(CurrentStep(s, s.writer.send, phase))
  {
    var t := CurrentStep(s, s.writer.send, phase);
    DeliverKeepsLog(s.log, Progress(s.writer), s.writer.send.packet);
    assert Progress(t.writer) == Progress(s.writer) && Pending(s.writer) == []
           && Pending(t.writer) == [s.writer.send.packet.data];
    assert t.log == s.log.(wire := s.log.wire + [s.writer.send.packet]);
  }

  lemma DeliverCurrentKeepsInv(s: State, phase: Phase)
    requires Inv(s) && s.writer.Waiting? && s.writer.send.phase.OnStream?
    requires !s.broken && phase.Ended? && phase.delivered
    ensures Inv(CurrentStep(s, s.writer.send, phase))
  {
    var t := CurrentStep(s, s.writer.send, phase);
    DeliverCurrentKeepsBytes(s, phase);
    assert s.left == [] && s.log.extra == [];
    assert t.log == s.log.(wire := s.log.wire + [s.writer.send.packet])
           && Pending(t.writer) == [s.writer.send.packet.data];
    assert EndsWith(t.log.wire, s.writer.send.packet.data);
  }

  /** One step of a send: it does not get its packet onto the stream, or it does. */
  lemma CurrentPhaseKeepsInv(s: State, op: SendOp, phase: Phase)
    requires Inv(s) && s.writer.Waiting? && NextPhase(s.writer.send.phase, op, s.cancelled, s.broken) == Some(phase)
    ensures Inv(CurrentStep(s, s.writer.send, phase))
  {
    if phase.Ended? && phase.delivered { DeliverCurrentKeepsInv(s, phase); } else { QuietCurrentKeepsInv(s, phase); }
  }

  lemma CurrentKeepsInv(s: State, op: SendOp)
    requires Inv(s)
    ensures Inv(Step(s, Current(op)))
  {
    var t := Step(s, Current(op));
    if t != s {
      var phase := NextPhase(s.writer.send.phase, op, s.cancelled, s.broken).value;
      assert t == CurrentStep(s, s.writer.send, phase);
      CurrentPhaseKeepsInv(s, op, phase);
    }
  }

  lemma QuietLeftKeepsInv(s: State, phase: Phase)
    requires Inv(s) && s.left != [] && !s.left[0].phase.Ended? && phase == Ended(false, false)
    ensures Inv(LeftStep(s, 0, phase))
  {
    var t := LeftStep(s, 0, phase);
    assert s.log.extra + [] == s.log.extra;
    assert t.log == s.log && t.left == [s.left[0].(phase := phase)];
  }

  lemma DeliverLeftKeepsInv(s: State, phase: Phase)
    requires Inv(s) && s.left != [] && s.left[0].phase.OnStream? && !s.broken && phase.Ended? && phase.delivered
    ensures Inv(LeftStep(s, 0, phase))
  {
    var t := LeftStep(s, 0, phase);
    var p := s.left[0].packet;
    LeftDeliverKeepsLog(s.log, Progress(s.writer), p);
    assert t.log == s.log.(wire := s.log.wire + [p], extra := s.log.extra + [p.data]);
    assert t.left == [s.left[0].(phase := phase)] && s.log.extra == [];
  }

  lemma LeftPhaseKeepsInv(s: State, op: SendOp, phase: Phase)
    requires Inv(s) && s.left != [] && NextPhase(s.left[0].phase, op, true, s.broken) == Some(phase)
    ensures Inv(LeftStep(s, 0, phase))
  {
    if phase.Ended? && phase.delivered { DeliverLeftKeepsInv(s, phase); } else { QuietLeftKeepsInv(s, phase); }
  }

  lemma LeftKeepsInv(s: State, i: nat, op: SendOp)
    requires Inv(s)
    ensures Inv(Step(s, Left(i, op)))
  {
    var t := Step(s, Left(i, op));
    if t != s {
      var phase := NextPhase(s.left[i].phase, op, true, s.broken).value;
      assert i == 0 && t == LeftStep(s, 0, phase);
      LeftPhaseKeepsInv(s, op, phase);
    }
  }

  /** The send was successful: its packet counts as written. */
  function Counted(s: State): State
    requires s.writer.Waiting?
  {
    s.(writer := Looping(s.writer.b, s.writer.n + |s.writer.send.packet.data|))
  }

  lemma ChunkFollows(b: Bytes, n: nat)
    requires n <= |b|
    ensures b[..n + |ChunkAt(b, n)|] == b[..n] + ChunkAt(b, n)
  {}

  lemma CountKeepsInv(s: State)
    requires Inv(s) && s.writer.Waiting? && s.writer.send.phase.Ended? && s.writer.send.phase.ok
    ensures Inv(Counted(s))
  {
    assert s.log.extra == [];
    ChunkFollows(s.writer.b, s.writer.n);
    CountKeepsLog(s.log, Progress(s.writer), s.writer.send.packet.data);
  }

  lemma SeeErrorKeepsInv(s: State)
    requires Inv(s) && s.writer.Waiting? && s.writer.send.phase.Ended? && !s.writer.send.phase.ok
    ensures Inv(Return(s, Result(s.writer.b, s.writer.n, false), Delivered(s.writer.send)))
  {
    ReturnKeepsBytes(s, Result(s.writer.b, s.writer.n, false));
    ReturnKeepsLast(s, Result(s.writer.b, s.writer.n, false));
  }

  lemma AbandonKeepsInv(s: State)
    requires Inv(s) && s.writer.Waiting?
    ensures var t := Abandon(s, s.writer.b, s.writer.n, s.writer.send).(writeErr := true); Inv(t)
    ensures s.cancelled ==> Inv(Abandon(s, s.writer.b, s.writer.n, s.writer.send))
  {
    ReturnKeepsBytes(s, Result(s.writer.b, s.writer.n, false));
    ReturnKeepsLast(s, Result(s.writer.b, s.writer.n, false));
  }

  lemma TimeOutKeepsInv(s: State)
    requires Inv(s) && s.writer.Waiting?
    ensures Inv(TimeOut(Abandon(s, s.writer.b, s.writer.n, s.writer.send)))
  {
    AbandonKeepsInv(s);
    var t := Abandon(s, s.writer.b, s.writer.n, s.writer.send).(writeErr := true);
    assert Wire(TimeOut(t).log) == Wire(t.log) && Reported(TimeOut(t).log) == Reported(t.log);
  }

  lemma StartKeepsInv(s: State, b: Bytes)
    requires Inv(s)
    ensures Inv(Step(s, StartWrite(b)))
  {
    assert Progress(Step(s, StartWrite(b)).writer) == Progress(s.writer);
  }

  /** Closes and failures only set flags. */
  lemma FlagsKeepInv(s: State, t: State)
    requires Inv(s) && t.writer == s.writer && t.left == s.left && t.calls == s.calls
    requires t.log == s.log && t.writeErr == s.writeErr
    requires (s.closed ==> t.closed) && (s.cancelled ==> t.cancelled) && (s.broken ==> t.broken)
    requires (t.cancelled ==> t.localClosed) && (t.localClosed ==> t.closed)
    ensures Inv(t)
  {
    assert ByteInv(t) && LastInv(t) && ResultsInv(t);
  }

  lemma ReturnsKeepInv(s: State, a: Action)
    requires Inv(s) && (a.SeeResult? || a.SeeCancel? || a.SeeDeadline?) && Step(s, a) != s
    ensures Inv(Step(s, a))
  {
    match a
    case SeeResult => if s.writer.send.phase.ok { CountKeepsInv(s); } else { SeeErrorKeepsInv(s); }
    case SeeCancel => AbandonKeepsInv(s);
    case SeeDeadline => TimeOutKeepsInv(s);
  }

  lemma StepKeepsInv(s: State, a: Action)
    requires Inv(s)
    ensures Inv(Step(s, a))
  {
    if Step(s, a) != s {
      match a
      case StartWrite(b) => StartKeepsInv(s, b);
      case Check(deadlinePassed) => CheckKeepsInv(s, deadlinePassed);
      case Current(op) => CurrentKeepsInv(s, op);
      case Left(i, op) => LeftKeepsInv(s, i, op);
      case SeeResult => ReturnsKeepInv(s, a);
      case SeeCancel => ReturnsKeepInv(s, a);
      case SeeDeadline => ReturnsKeepInv(s, a);
      case _ => FlagsKeepInv(s, Step(s, a));
    }
  }

  lemma Always(actions: seq<Action>)
    ensures Inv(Run(Step, INITIAL, actions))
  {
    forall t, a | Inv(t) ensures Inv(Step(t, a)) { StepKeepsInv(t, a); }
    Invariance(Step, Inv, INITIAL, actions);
  }

  // ----- The theorems -----

  /** In every interleaving, once no Write is in progress, the DATA on the stream is
      the concatenation of the prefixes the Writes reported as written, in order and
      without gaps, followed by at most one packet: the last on the stream, and the
      chunk at which a Write reported an error. A Write that reports no error reports
      all its bytes. */
  lemma WireIsWhatWasReported(actions: seq<Action>)
    ensures var s := Run(Step, INITIAL, actions);
            && |s.log.extra| <= 1
            && (s.writer.Idle? ==> Wire(s.log) == Reported(s.log) + Flat(s.log.extra))
            && (s.log.extra != [] ==> EndsWith(s.log.wire, s.log.extra[0]) && GivenUp(s.log.results, s.log.extra[0]))
            && (forall i | 0 <= i < |s.log.results| :: ResultOk(s.log.results[i]))
  {
    Always(actions);
    var s := Run(Step, INITIAL, actions);
    if s.writer.Idle? {
      assert s.log.extra + [] == s.log.extra && Reported(s.log) + [] == Reported(s.log);
    }
  }

  /** In every interleaving every packet is nonempty and at most 32768 bytes. */
  lemma PacketsAreBounded(actions: seq<Action>)
    ensures var s := Run(Step, INITIAL, actions);
            forall i | 0 <= i < |s.log.wire| :: 0 < |s.log.wire[i].data| <= MAX_PACKET
  {
    Always(actions);
    var s := Run(Step, INITIAL, actions);
    assert forall i | 0 <= i < |s.log.wire| :: PacketOk(s.log.wire[i], s.calls);
  }

  /** In every interleaving no packet of a Write that starts after a timeout during a
      send is on the stream. */
  lemma NothingSentAfterTimeout(actions: seq<Action>)
    ensures var s := Run(Step, INITIAL, actions);
            s.log.timedOut.Some? ==> forall i | 0 <= i < |s.log.wire| :: s.log.wire[i].call <= s.log.timedOut.value
  {
    Always(actions);
  }

  // ----- Writes do get through -----

  lemma ReachedInv(t: State)
    requires Reaches(Step, INITIAL, t)
    ensures Inv(t)
  {
    var actions :| Run(Step, INITIAL, actions) == t;
    Always(actions);
  }

  predicate Healthy(s: State) { !s.closed && !s.writeErr && !s.broken && !s.cancelled && s.log.extra == [] }

  lemma WriteChunk(s: State) returns (t: State)
    requires Reaches(Step, INITIAL, s) && Healthy(s) && s.writer.Looping? && s.writer.n < |s.writer.b|
    ensures Reaches(Step, INITIAL, t) && Healthy(t) && t.log.results == s.log.results
    ensures t.writer == Looping(s.writer.b, s.writer.n + |ChunkAt(s.writer.b, s.writer.n)|)
  {
    ReachesNext(Step, INITIAL, s, Check(false));
    t := Step(s, Check(false));
    ReachesNext(Step, INITIAL, t, Current(Reach));
    t := Step(t, Current(Reach));
    ReachesNext(Step, INITIAL, t, Current(Deliver));
    t := Step(t, Current(Deliver));
    ReachesNext(Step, INITIAL, t, SeeResult);
    t := Step(t, SeeResult);
  }

  lemma {:induction false} WriteOn(s: State) returns (t: State)
    requires Reaches(Step, INITIAL, s) && Healthy(s) && s.writer.Looping? && s.writer.n <= |s.writer.b|
    ensures Reaches(Step, INITIAL, t) && Healthy(t) && t.writer.Idle?
    ensures t.log.results == s.log.results + [Result(s.writer.b, |s.writer.b|, true)]
    decreases |s.writer.b| - s.writer.n
  {
    if s.writer.n < |s.writer.b| {
      t := WriteChunk(s);
      t := WriteOn(t);
    } else {
      ReachesNext(Step, INITIAL, s, Check(false));
      t := Step(s, Check(false));
    }
  }

  lemma {:induction false} WriteAll(bs: seq<Bytes>) returns (t: State)
    ensures Reaches(Step, INITIAL, t) && Healthy(t) && t.writer.Idle?
    ensures t.log.results == seq(|bs|, i requires 0 <= i < |bs| => Result(bs[i], |bs[i]|, true))
  {
    if bs == [] {
      t := INITIAL;
      ReachesSelf(Step, INITIAL);
    } else {
      var last := bs[|bs| - 1];
      t := WriteAll(bs[..|bs| - 1]);
      ReachesNext(Step, INITIAL, t, StartWrite(last));
      t := WriteOn(Step(t, StartWrite(last)));
    }
  }

  lemma {:induction false} ReportedAll(bs: seq<Bytes>)
    ensures Payload(Written, seq(|bs|, i requires 0 <= i < |bs| => Result(bs[i], |bs[i]|, true))) == Flat(bs)
  {
    var results := seq(|bs|, i requires 0 <= i < |bs| => Result(bs[i], |bs[i]|, true));
    if bs != [] {
      var init, last := bs[..|bs| - 1], bs[|bs| - 1];
      ReportedAll(init);
      assert results[..|bs| - 1] == seq(|init|, i requires 0 <= i < |init| => Result(init[i], |init[i]|, true));
      FlatAppend(init, last);
      assert init + [last] == bs && last[..|last|] == last;
    }
  }

  lemma IdleCarriesReported(t: State, bs: seq<Bytes>)
    requires Inv(t) && t.writer.Idle? && t.log.extra == []
    requires t.log.results == seq(|bs|, i requires 0 <= i < |bs| => Result(bs[i], |bs[i]|, true))
    ensures Wire(t.log) == Flat(bs)
  {
    ReportedAll(bs);
    assert t.log.extra + [] == [];
  }

  /** Any sequence of Writes can all succeed, and then the stream carries exactly
      their bytes. */
  lemma EveryWriteCanGetThrough(bs: seq<Bytes>)
    ensures exists actions :: var s := Run(Step, INITIAL, actions);
              && s.writer.Idle? && |s.log.results| == |bs|
              && (forall i | 0 <= i < |bs| :: s.log.results[i] == Result(bs[i], |bs[i]|, true))
              && Wire(s.log) == Flat(bs)
  {
    var t := WriteAll(bs);
    ReachedInv(t);
    IdleCarriesReported(t, bs);
    var actions :| Run(Step, INITIAL, actions) == t;
  }
}
