/** What every interleaving of an endpoint connection keeps. */
module EndpointProofs {
  import opened Bytes
  import opened Runs
  import opened AgentEndpoint

  function Rank(c: Cleaner): nat {
    match c
    case NotCalled => 0
    case WaitDial => 1
    case ClosingSend => 2
    case WaitSend => 3
    case SendingClose => 4
    case ClosingData => 5
    case Deleting => 6
    case ClosingConn => 7
    case Cleaned => 8
  }

  /** The three copying goroutines were started. */
  predicate Spawned(s: State) { !s.inflow.reader.NoReader? }

  /** Every channel is closed by one goroutine, at one point of its progress. */
  ghost predicate CloseInv(s: State) {
    && s.closes.dialDone == Once(s.dialer.DialEnded?)
    && s.closes.sendCh == Once(Rank(s.cleaner) >= 3)
    && s.closes.dataCh == Once(Rank(s.cleaner) >= 6)
    && s.closes.sendDone == (if Spawned(s) then Once(s.inflow.sender.SenderDone?)
                             else Once(s.dialer.Answered? || s.dialer.DialEnded?))
    && (Rank(s.cleaner) >= 2 ==> s.closes.dialDone == 1)
    && (Rank(s.cleaner) >= 4 ==> s.closes.sendDone == 1)
  }

  ghost predicate ControlInv(s: State) {
    && (s.inflow.reader.NoReader? <==> s.inflow.sender.NoSender?)
    && (s.inflow.reader.NoReader? <==> s.outflow.writer.NoWriter?)
    && (Spawned(s) ==> s.dialer.Answered? || s.dialer.DialEnded?)
    && (Spawned(s) || s.dialer.Connected? || s.dialer.AnswerFailed? || Rank(s.cleaner) >= 1 ==>
          (s.managed <==> Rank(s.cleaner) <= 6))
    && (s.dialer.Connecting? || s.dialer.Refused? || s.dialer.RefusalSent? ==> !s.managed && s.cleaner.NotCalled?)
    && (s.inflow.sender.Finishing? || s.inflow.sender.SenderDone? ==> s.inflow.queue == [] && s.closes.sendCh == 1)
    && (s.outflow.writer.WriterDone? ==> s.outflow.queue == [] && s.closes.dataCh == 1)
  }

  /** A CLOSE_RSP is the last word on the connection: no DATA and no second clean
      CLOSE_RSP follows it. */
  ghost predicate Ordered(up: seq<Up>) {
    forall i, j | 0 <= i < j < |up| && (up[i].CleanClose? || up[i].ErrorClose?) :: !up[j].Data? && !up[j].CleanClose?
  }

  ghost predicate UpInv(s: State) {
    && Ordered(s.up)
    && (CleanClose in s.up ==> Rank(s.cleaner) >= 5)
    && (ErrorClose in s.up ==> Rank(s.cleaner) >= 7)
    && (!Spawned(s) ==> forall p | p in s.up :: !p.Data?)
    && (DialOk in s.up <==> Spawned(s))
    && (Spawned(s) ==> s.up[0] == DialOk)
    && (s.dialer.Connecting? || s.dialer.Refused? || s.dialer.Connected? ==> s.up == [])
    && (forall i | 1 <= i < |s.up| :: !s.up[i].DialOk? && !s.up[i].DialError?)
  }

  function DataOf(p: Up): Bytes { if p.Data? then p.payload else [] }

  /** The bytes sent to the server. */
  function Sent(s: State): Bytes { Payload(DataOf, s.up) }

  function SenderHand(f: Inflow): Bytes { if f.sender.Sending? then f.sender.data else [] }

  function ReaderHand(f: Inflow): Bytes { if f.reader.Holding? then f.reader.data else [] }

  function WriterHand(f: Outflow): Bytes { if f.writer.Writing? then f.writer.rest else [] }

  /** The bytes past the reader and not sent, oldest first: lost by the sender, in its
      hand, queued. */
  function Ahead(f: Inflow): Bytes { f.undelivered + (SenderHand(f) + Flat(f.queue)) }

  /** The bytes in the reader's hand, or lost by it. */
  function Held(f: Inflow): Bytes { ReaderHand(f) + f.discarded }

  /** The bytes read from the remote and not sent, oldest first. */
  function Behind(f: Inflow): Bytes { Ahead(f) + Held(f) }

  /** Every byte read from the remote is in exactly one place; sent are the bytes
      sent to the server. */
  ghost predicate FlowInv(f: Inflow, sent: Bytes) {
    && sent + Behind(f) == f.fromRemote
    && (f.discarded != [] ==> f.reader.Leaving? || f.reader.Left?)
    && (f.remoteEnded ==> f.discarded == [] && (f.reader.Leaving? || f.reader.Left?))
    && (f.undelivered != [] ==> f.sender.Draining? || f.sender.Finishing? || f.sender.SenderDone?)
    && (f.reader.NoReader? ==> f.queue == [] && f.fromRemote == [])
  }

  /** The sender gives bytes up only after a send failed, and then no clean CLOSE_RSP
      is sent. */
  ghost predicate LossInv(s: State) {
    s.inflow.undelivered != [] || s.inflow.sender.Draining? ==> s.broken && CleanClose !in s.up
  }

  ghost predicate InInv(s: State) { FlowInv(s.inflow, Sent(s)) && LossInv(s) }

  /** The bytes put into dataCh and not written. */
  function BehindOut(f: Outflow): Bytes { f.unwritten + (WriterHand(f) + Flat(f.queue)) }

  ghost predicate OutInv(f: Outflow) {
    && f.toRemote + BehindOut(f) == Flat(f.pushed)
    && (f.unwritten != [] ==> f.writer.Discarding? || f.writer.WriterDone?)
  }

  ghost predicate Inv(s: State) { CloseInv(s) && ControlInv(s) && UpInv(s) && InInv(s) && OutInv(s.outflow) }

  // ----- What is sent, and in what order -----

  lemma AppendKeepsOrder(up: seq<Up>, p: Up)
    requires Ordered(up)
    requires p.Data? || p.CleanClose? ==> CleanClose !in up && ErrorClose !in up
    ensures Ordered(up + [p])
  {
    var next := up + [p];
    forall i, j | 0 <= i < j < |next| && (next[i].CleanClose? || next[i].ErrorClose?)
      ensures !next[j].Data? && !next[j].CleanClose?
    {
      if j == |up| { assert up[i] in up; }
    }
  }

  /** A step that sends nothing and does not undo any progress. */
  lemma QuietKeepsUp(s: State, t: State)
    requires UpInv(s) && t.up == s.up && Spawned(t) == Spawned(s) && Rank(t.cleaner) >= Rank(s.cleaner)
    requires t.dialer.Connecting? || t.dialer.Refused? || t.dialer.Connected? ==> s.up == []
    ensures UpInv(t)
  {}

  /** A step that sends `p`. */
  lemma SendKeepsUp(s: State, t: State, p: Up)
    requires UpInv(s) && t.up == s.up + [p] && Rank(t.cleaner) >= Rank(s.cleaner)
    requires !t.dialer.Connecting? && !t.dialer.Refused? && !t.dialer.Connected?
    requires match p
             case Data(_) => Spawned(s) && Rank(s.cleaner) <= 3
             case CleanClose => Rank(s.cleaner) == 4 && Rank(t.cleaner) == 5
             case ErrorClose => Spawned(s) && Rank(s.cleaner) >= 7
             case _ => s.up == []
    requires Spawned(t) == (Spawned(s) || p.DialOk?)
    ensures UpInv(t)
  {
    AppendKeepsOrder(s.up, p);
    assert forall q :: q in t.up <==> q in s.up || q == p;
    assert s.up != [] ==> t.up[0] == s.up[0];
  }

  // ----- The dialing goroutine -----

  lemma DialKeepsControl(s: State, op: DialOp)
    requires CloseInv(s) && ControlInv(s)
    ensures CloseInv(DialStep(s, op)) && ControlInv(DialStep(s, op))
  {}

  lemma DialKeepsUp(s: State, op: DialOp)
    requires ControlInv(s) && UpInv(s)
    ensures UpInv(DialStep(s, op))
  {
    var t := DialStep(s, op);
    if t.up == s.up { QuietKeepsUp(s, t); } else { SendKeepsUp(s, t, if op.Answer? then DialOk else DialError); }
  }

  /** A packet that carries no bytes. */
  lemma EmptyPacketKeepsSent(s: State, p: Up)
    requires !p.Data?
    ensures Sent(Emit(s, p)) == Sent(s)
  {
    PayloadAppend(DataOf, s.up, p);
    assert Sent(s) + [] == Sent(s);
  }

  lemma SpawnKeepsFlow(f: Inflow, sent: Bytes)
    requires FlowInv(f, sent) && f.reader.NoReader? && f.sender.NoSender?
    ensures FlowInv(f.(reader := Reading, sender := Taking), sent)
  {
    var t := f.(reader := Reading, sender := Taking);
    assert Ahead(t) == Ahead(f) && Held(t) == Held(f);
  }

  lemma SpawnKeepsOut(f: Outflow)
    requires OutInv(f) && f.writer.NoWriter?
    ensures OutInv(f.(writer := Waiting))
  {
    assert BehindOut(f.(writer := Waiting)) == BehindOut(f);
  }

  lemma AnswerKeepsFlows(s: State)
    requires ControlInv(s) && InInv(s) && OutInv(s.outflow) && s.dialer.Connected?
    ensures InInv(Spawn(Emit(s, DialOk))) && OutInv(Spawn(Emit(s, DialOk)).outflow)
  {
    EmptyPacketKeepsSent(s, DialOk);
    SpawnKeepsFlow(s.inflow, Sent(s));
    SpawnKeepsOut(s.outflow);
    assert Sent(Spawn(Emit(s, DialOk))) == Sent(s);
  }

  /** A step that leaves the path from the remote alone and sends no clean CLOSE_RSP
      after a send failed. */
  lemma AsideKeepsIn(s: State, t: State)
    requires InInv(s) && t.inflow == s.inflow && Sent(t) == Sent(s)
    requires s.broken ==> t.broken && (CleanClose in t.up ==> CleanClose in s.up)
    ensures InInv(t)
  {}

  /** A step that sends nothing and leaves the path from the remote alone. */
  lemma QuietKeepsIn(s: State, t: State)
    requires InInv(s) && t.inflow == s.inflow && t.up == s.up && (s.broken ==> t.broken)
    ensures InInv(t)
  {
    AsideKeepsIn(s, t);
  }

  lemma RefusedKeepsFlows(s: State)
    requires InInv(s) && OutInv(s.outflow)
    ensures InInv(DialStep(s, SendRefusal(true))) && OutInv(DialStep(s, SendRefusal(true)).outflow)
  {
    EmptyPacketKeepsSent(s, DialError);
    var t := DialStep(s, SendRefusal(true));
    if t != s {
      assert t.up == s.up + [DialError] && Sent(t) == Sent(Emit(s, DialError));
      AsideKeepsIn(s, t);
    }
  }

  lemma AnsweredKeepsFlows(s: State)
    requires ControlInv(s) && InInv(s) && OutInv(s.outflow)
    ensures InInv(DialStep(s, Answer(true))) && OutInv(DialStep(s, Answer(true)).outflow)
  {
    var t := DialStep(s, Answer(true));
    if t != s {
      var m := Spawn(Emit(s, DialOk));
      assert t == m.(dialer := Answered);
      AnswerKeepsFlows(s);
      QuietKeepsIn(m, m.(dialer := Answered));
    }
  }

  lemma DialIsQuiet(s: State, op: DialOp)
    requires op != Answer(true) && op != SendRefusal(true)
    ensures var t := DialStep(s, op);
            t.inflow == s.inflow && t.outflow == s.outflow && t.up == s.up && (s.broken ==> t.broken)
  {}

  lemma DialKeepsFlows(s: State, op: DialOp)
    requires ControlInv(s) && InInv(s) && OutInv(s.outflow)
    ensures InInv(DialStep(s, op)) && OutInv(DialStep(s, op).outflow)
  {
    if op == Answer(true) {
      AnsweredKeepsFlows(s);
    } else if op == SendRefusal(true) {
      RefusedKeepsFlows(s);
    } else {
      DialIsQuiet(s, op);
      QuietKeepsIn(s, DialStep(s, op));
    }
  }

  // ----- Cleanup -----

  lemma CleanKeepsControl(s: State, op: CleanOp)
    requires CloseInv(s) && ControlInv(s)
    ensures CloseInv(CleanStep(s, op)) && ControlInv(CleanStep(s, op))
  {}

  lemma CleanKeepsUp(s: State, op: CleanOp)
    requires CloseInv(s) && ControlInv(s) && UpInv(s)
    ensures UpInv(CleanStep(s, op))
  {
    var t := CleanStep(s, op);
    if t.up == s.up { QuietKeepsUp(s, t); } else { SendKeepsUp(s, t, CleanClose); }
  }

  lemma SendCloseKeepsIn(s: State)
    requires InInv(s) && !s.broken
    ensures InInv(Emit(s, CleanClose).(cleaner := ClosingData))
  {
    EmptyPacketKeepsSent(s, CleanClose);
    AsideKeepsIn(s, Emit(s, CleanClose).(cleaner := ClosingData));
  }

  lemma CleanKeepsFlows(s: State, op: CleanOp)
    requires InInv(s)
    ensures InInv(CleanStep(s, op)) && CleanStep(s, op).outflow == s.outflow
  {
    var t := CleanStep(s, op);
    if t == s {
    } else if op == SendClose(true) {
      SendCloseKeepsIn(s);
    } else {
      QuietKeepsIn(s, t);
    }
  }

  // ----- The reader -----

  lemma ReadKeepsControl(s: State, op: ReadOp)
    requires CloseInv(s) && ControlInv(s) && UpInv(s)
    ensures var t := Step(s, FromRemote(op)); CloseInv(t) && ControlInv(t) && UpInv(t)
  {
    QuietKeepsUp(s, Step(s, FromRemote(op)));
  }

  lemma ReadDataKeepsFlow(f: Inflow, sent: Bytes, data: Bytes)
    requires FlowInv(f, sent) && f.reader.Reading?
    ensures FlowInv(f.(reader := Holding(data), fromRemote := f.fromRemote + data), sent)
  {
    var t := f.(reader := Holding(data), fromRemote := f.fromRemote + data);
    assert Held(f) == [] && Held(t) == data && Ahead(t) == Ahead(f);
    assert Behind(f) == Ahead(f);
    Regroup(sent, Ahead(f), data);
  }

  lemma PutKeepsFlow(f: Inflow, sent: Bytes)
    requires FlowInv(f, sent) && f.reader.Holding?
    ensures FlowInv(f.(queue := f.queue + [f.reader.data], reader := Reading), sent)
  {
    var t := f.(queue := f.queue + [f.reader.data], reader := Reading);
    FlatAppend(f.queue, f.reader.data);
    Regroup(SenderHand(f), Flat(f.queue), f.reader.data);
    Regroup(f.undelivered, SenderHand(f) + Flat(f.queue), f.reader.data);
    assert Ahead(t) == Ahead(f) + f.reader.data && Held(f) == f.reader.data && Held(t) == [];
  }

  lemma LeaveKeepsFlow(f: Inflow, sent: Bytes, op: ReadOp, sendClosed: bool, stopped: bool, cleaning: bool)
    requires FlowInv(f, sent) && !op.Read? && !op.Put?
    ensures FlowInv(ReadStep(f, op, sendClosed, stopped, cleaning), sent)
  {
    var t := ReadStep(f, op, sendClosed, stopped, cleaning);
    assert Ahead(t) == Ahead(f) && Held(t) == Held(f);
  }

  lemma ReadKeepsFlow(f: Inflow, sent: Bytes, op: ReadOp, sendClosed: bool, stopped: bool, cleaning: bool)
    requires FlowInv(f, sent)
    ensures var t := ReadStep(f, op, sendClosed, stopped, cleaning);
            FlowInv(t, sent) && t.undelivered == f.undelivered && t.sender == f.sender
  {
    var t := ReadStep(f, op, sendClosed, stopped, cleaning);
    if t != f {
      match op
      case Read(data) => ReadDataKeepsFlow(f, sent, data);
      case Put => PutKeepsFlow(f, sent);
      case _ => LeaveKeepsFlow(f, sent, op, sendClosed, stopped, cleaning);
    }
  }

  // ----- The sender -----

  lemma SendKeepsControl(s: State, op: SendOp)
    requires CloseInv(s) && ControlInv(s)
    ensures CloseInv(SendStep(s, op)) && ControlInv(SendStep(s, op))
  {}

  lemma SenderKeepsUp(s: State, op: SendOp)
    requires CloseInv(s) && ControlInv(s) && UpInv(s)
    ensures UpInv(SendStep(s, op))
  {
    var t := SendStep(s, op);
    if t.up == s.up { QuietKeepsUp(s, t); } else { SendKeepsUp(s, t, Data(s.inflow.sender.data)); }
  }

  lemma SendDataKeepsFlow(f: Inflow, sent: Bytes)
    requires FlowInv(f, sent) && f.sender.Sending?
    ensures FlowInv(f.(sender := Taking), sent + f.sender.data)
  {
    var t := f.(sender := Taking);
    assert f.undelivered == [];
    assert Ahead(f) == f.sender.data + Flat(f.queue) && Ahead(t) == Flat(f.queue) && Held(t) == Held(f);
    Regroup(f.sender.data, Flat(f.queue), Held(f));
    Regroup(sent, f.sender.data, Behind(t));
  }

  lemma SameAheadKeepsFlow(f: Inflow, t: Inflow, sent: Bytes)
    requires FlowInv(f, sent) && Ahead(t) == Ahead(f) && t.reader == f.reader && t.fromRemote == f.fromRemote
    requires t.discarded == f.discarded && t.remoteEnded == f.remoteEnded && !f.reader.NoReader?
    requires t.undelivered != [] ==> t.sender.Draining? || t.sender.Finishing? || t.sender.SenderDone?
    ensures FlowInv(t, sent)
  {
    assert Held(t) == Held(f);
  }

  lemma SendFailsKeepsFlow(f: Inflow, sent: Bytes)
    requires FlowInv(f, sent) && f.sender.Sending? && !f.reader.NoReader?
    ensures FlowInv(f.(sender := Draining, undelivered := f.undelivered + f.sender.data), sent)
  {
    Regroup(f.undelivered, f.sender.data, Flat(f.queue));
    SameAheadKeepsFlow(f, f.(sender := Draining, undelivered := f.undelivered + f.sender.data), sent);
  }

  lemma TakeKeepsFlow(f: Inflow, sent: Bytes)
    requires FlowInv(f, sent) && f.sender.Taking? && f.queue != [] && !f.reader.NoReader?
    ensures FlowInv(f.(sender := Sending(f.queue[0]), queue := f.queue[1..]), sent)
  {
    FlatHead(f.queue);
    SameAheadKeepsFlow(f, f.(sender := Sending(f.queue[0]), queue := f.queue[1..]), sent);
  }

  lemma DiscardKeepsFlow(f: Inflow, sent: Bytes)
    requires FlowInv(f, sent) && f.sender.Draining? && f.queue != [] && !f.reader.NoReader?
    ensures FlowInv(f.(undelivered := f.undelivered + f.queue[0], queue := f.queue[1..]), sent)
  {
    FlatHead(f.queue);
    Regroup(f.undelivered, f.queue[0], Flat(f.queue[1..]));
    SameAheadKeepsFlow(f, f.(undelivered := f.undelivered + f.queue[0], queue := f.queue[1..]), sent);
  }

  lemma FinishKeepsFlow(f: Inflow, sent: Bytes, sender: Sender)
    requires FlowInv(f, sent) && !f.sender.Sending? && (sender.Finishing? || sender.SenderDone?) && !f.reader.NoReader?
    ensures FlowInv(f.(sender := sender), sent)
  {
    SameAheadKeepsFlow(f, f.(sender := sender), sent);
  }

  lemma SendDataKeepsIn(s: State)
    requires CloseInv(s) && ControlInv(s) && UpInv(s) && InInv(s)
    ensures InInv(SendStep(s, SendData(true)))
  {
    var t := SendStep(s, SendData(true));
    if t != s {
      SendDataKeepsFlow(s.inflow, Sent(s));
      PayloadAppend(DataOf, s.up, Data(s.inflow.sender.data));
      assert Sent(t) == Sent(s) + s.inflow.sender.data;
    }
  }

  lemma SendFailsKeepsIn(s: State)
    requires CloseInv(s) && ControlInv(s) && UpInv(s) && InInv(s)
    ensures InInv(SendStep(s, SendData(false)))
  {
    var t := SendStep(s, SendData(false));
    if t != s {
      SendFailsKeepsFlow(s.inflow, Sent(s));
      assert Sent(t) == Sent(s);
    }
  }

  lemma QueueKeepsIn(s: State, op: SendOp)
    requires ControlInv(s) && InInv(s) && !op.SendData?
    ensures InInv(SendStep(s, op))
  {
    var t := SendStep(s, op);
    if t != s {
      match op
      case Take => TakeKeepsFlow(s.inflow, Sent(s));
      case Discard => DiscardKeepsFlow(s.inflow, Sent(s));
      case SeeEnd => FinishKeepsFlow(s.inflow, Sent(s), Finishing);
      case SignalDone => FinishKeepsFlow(s.inflow, Sent(s), SenderDone);
      assert Sent(t) == Sent(s);
    }
  }

  lemma SenderKeepsFlows(s: State, op: SendOp)
    requires CloseInv(s) && ControlInv(s) && UpInv(s) && InInv(s)
    ensures InInv(SendStep(s, op)) && SendStep(s, op).outflow == s.outflow
  {
    if op == SendData(true) { SendDataKeepsIn(s); }
    else if op == SendData(false) { SendFailsKeepsIn(s); }
    else { QueueKeepsIn(s, op); }
  }

  // ----- The writer and the receive loop -----

  lemma PushKeepsOut(f: Outflow, data: Bytes)
    requires OutInv(f)
    ensures OutInv(f.(queue := f.queue + [data], pushed := f.pushed + [data], pusher := NotPushing))
  {
    var t := f.(queue := f.queue + [data], pushed := f.pushed + [data], pusher := NotPushing);
    FlatAppend(f.queue, data);
    FlatAppend(f.pushed, data);
    Regroup(WriterHand(f), Flat(f.queue), data);
    Regroup(f.unwritten, WriterHand(f) + Flat(f.queue), data);
    Regroup(f.toRemote, BehindOut(f), data);
    assert BehindOut(t) == BehindOut(f) + data;
  }

  /** A part of the chunk in hand, or all of it, is written. */
  lemma WrittenKeepsOut(f: Outflow, done: Bytes, rest: Bytes, writer: Writer)
    requires OutInv(f) && f.writer == Writing(done + rest)
    requires writer == Writing(rest) || (writer == Waiting && rest == [])
    ensures OutInv(f.(toRemote := f.toRemote + done, writer := writer))
  {
    var t := f.(toRemote := f.toRemote + done, writer := writer);
    assert f.unwritten == [];
    Regroup(done, rest, Flat(f.queue));
    assert BehindOut(f) == done + (rest + Flat(f.queue)) && BehindOut(t) == rest + Flat(f.queue);
    Regroup(f.toRemote, done, rest + Flat(f.queue));
  }

  lemma TakeChunkKeepsOut(f: Outflow)
    requires OutInv(f) && f.writer.Waiting? && f.queue != []
    ensures OutInv(f.(writer := Writing(f.queue[0]), queue := f.queue[1..]))
  {
    FlatHead(f.queue);
    assert BehindOut(f.(writer := Writing(f.queue[0]), queue := f.queue[1..])) == BehindOut(f);
  }

  lemma DiscardChunkKeepsOut(f: Outflow)
    requires OutInv(f) && f.writer.Discarding? && f.queue != []
    ensures OutInv(f.(unwritten := f.unwritten + f.queue[0], queue := f.queue[1..]))
  {
    FlatHead(f.queue);
    Regroup(f.unwritten, f.queue[0], Flat(f.queue[1..]));
    assert BehindOut(f.(unwritten := f.unwritten + f.queue[0], queue := f.queue[1..])) == BehindOut(f);
  }

  lemma WriteFailsKeepsOut(f: Outflow)
    requires OutInv(f) && f.writer.Writing?
    ensures OutInv(f.(unwritten := f.unwritten + f.writer.rest, writer := Discarding))
  {
    Regroup(f.unwritten, f.writer.rest, Flat(f.queue));
    assert BehindOut(f.(unwritten := f.unwritten + f.writer.rest, writer := Discarding)) == BehindOut(f);
  }

  lemma WriteKeepsOut(f: Outflow, op: WriteOp, dataClosed: bool)
    requires OutInv(f)
    ensures OutInv(WriteStep(f, op, dataClosed))
  {
    var t := WriteStep(f, op, dataClosed);
    if t != f {
      match op
      case Push => PushKeepsOut(f, f.pusher.data);
      case WriteAll =>
        assert f.writer.rest + [] == f.writer.rest;
        WrittenKeepsOut(f, f.writer.rest, [], Waiting);
      case WriteSome(n) =>
        assert f.writer.rest[..n] + f.writer.rest[n..] == f.writer.rest;
        WrittenKeepsOut(f, f.writer.rest[..n], f.writer.rest[n..], Writing(f.writer.rest[n..]));
      case TakeChunk => TakeChunkKeepsOut(f);
      case DiscardChunk => DiscardChunkKeepsOut(f);
      case WriteFails => WriteFailsKeepsOut(f);
      case SeeDataEnd => assert BehindOut(t) == BehindOut(f);
      case PanicOnPush => assert BehindOut(t) == BehindOut(f);
    }
  }

  lemma WriteKeepsControl(s: State, op: WriteOp)
    requires CloseInv(s) && ControlInv(s) && UpInv(s)
    ensures var t := Step(s, ToRemote(op)); CloseInv(t) && ControlInv(t) && UpInv(t)
  {
    QuietKeepsUp(s, Step(s, ToRemote(op)));
  }

  lemma UnknownKeepsUp(s: State, ok: bool)
    requires ControlInv(s) && UpInv(s) && CanReceive(s) && !s.managed
    ensures UpInv(Unknown(s, ok))
  {
    var t := Unknown(s, ok);
    if t.up == s.up { QuietKeepsUp(s, t); } else { SendKeepsUp(s, t, ErrorClose); }
  }

  lemma UnknownKeepsInv(s: State, ok: bool)
    requires Inv(s) && CanReceive(s) && !s.managed
    ensures Inv(Unknown(s, ok))
  {
    UnknownKeepsUp(s, ok);
    EmptyPacketKeepsSent(s, ErrorClose);
    AsideKeepsIn(s, Unknown(s, ok));
  }

  lemma ReceiveKeepsInv(s: State, data: Bytes)
    requires Inv(s) && CanReceive(s)
    ensures Inv(s.(outflow := s.outflow.(pusher := Pushing(data))))
  {
    QuietKeepsUp(s, s.(outflow := s.outflow.(pusher := Pushing(data))));
    AsideKeepsIn(s, s.(outflow := s.outflow.(pusher := Pushing(data))));
  }

  // ----- Every step keeps the invariant -----

  lemma DialKeepsInv(s: State, op: DialOp)
    requires Inv(s)
    ensures Inv(DialStep(s, op))
  {
    DialKeepsControl(s, op);
    DialKeepsUp(s, op);
    DialKeepsFlows(s, op);
  }

  lemma CleanKeepsInv(s: State, op: CleanOp)
    requires Inv(s)
    ensures Inv(CleanStep(s, op))
  {
    CleanKeepsControl(s, op);
    CleanKeepsUp(s, op);
    CleanKeepsFlows(s, op);
  }

  lemma ReadKeepsInv(s: State, op: ReadOp)
    requires Inv(s)
    ensures Inv(Step(s, FromRemote(op)))
  {
    ReadKeepsControl(s, op);
    assert Sent(Step(s, FromRemote(op))) == Sent(s);
    ReadKeepsFlow(s.inflow, Sent(s), op, s.closes.sendCh > 0, s.stopped, !s.cleaner.NotCalled?);
  }

  lemma SenderKeepsInv(s: State, op: SendOp)
    requires Inv(s)
    ensures Inv(SendStep(s, op))
  {
    SendKeepsControl(s, op);
    SenderKeepsUp(s, op);
    SenderKeepsFlows(s, op);
  }

  lemma WriteKeepsInv(s: State, op: WriteOp)
    requires Inv(s)
    ensures Inv(Step(s, ToRemote(op)))
  {
    WriteKeepsControl(s, op);
    AsideKeepsIn(s, Step(s, ToRemote(op)));
    WriteKeepsOut(s.outflow, op, s.closes.dataCh > 0);
  }

  lemma StopKeepsInv(s: State)
    requires Inv(s)
    ensures Inv(Step(s, Stop))
  {
    QuietKeepsUp(s, s.(stopped := true));
    AsideKeepsIn(s, s.(stopped := true));
  }

  lemma StepKeepsInv(s: State, a: Action)
    requires Inv(s)
    ensures Inv(Step(s, a))
  {
    match a
    case Dial(op) => DialKeepsInv(s, op);
    case Clean(op) => CleanKeepsInv(s, op);
    case FromRemote(op) => ReadKeepsInv(s, op);
    case ToServer(op) => SenderKeepsInv(s, op);
    case ToRemote(op) => WriteKeepsInv(s, op);
    case ReceiveData(data, ok) =>
      if CanReceive(s) { if s.managed { ReceiveKeepsInv(s, data); } else { UnknownKeepsInv(s, ok); } }
    case ReceiveClose(ok) =>
      if CanReceive(s) { if s.managed { CleanKeepsInv(s, Call); } else { UnknownKeepsInv(s, ok); } }
    case Stop => StopKeepsInv(s);
  }

  lemma Always(sendCap: nat, dataCap: nat, actions: seq<Action>)
    ensures Inv(Run(Step, Initial(sendCap, dataCap), actions))
  {
    forall t, a | Inv(t) ensures Inv(Step(t, a)) { StepKeepsInv(t, a); }
    Invariance(Step, Inv, Initial(sendCap, dataCap), actions);
  }

  // ----- The theorems -----

  function Count(up: seq<Up>, p: Up): nat {
    if up == [] then 0 else Count(up[..|up| - 1], p) + Once(up[|up| - 1] == p)
  }

  lemma {:induction false} AbsentCountsZero(up: seq<Up>, p: Up)
    requires p !in up
    ensures Count(up, p) == 0
  {
    if up != [] { AbsentCountsZero(up[..|up| - 1], p); }
  }

  lemma {:induction false} OrderedCountsOnce(up: seq<Up>)
    requires Ordered(up)
    ensures Count(up, CleanClose) <= 1
  {
    if up != [] {
      var before := up[..|up| - 1];
      if up[|up| - 1].CleanClose? {
        assert forall i | 0 <= i < |before| :: before[i] == up[i] && !up[i].CleanClose?;
        AbsentCountsZero(before, CleanClose);
      } else {
        OrderedCountsOnce(before);
      }
    }
  }

  /** In every interleaving each channel is closed at most once, and the clean
      CLOSE_RSP is sent at most once, after all DATA of the connection. */
  lemma ClosedAtMostOnce(sendCap: nat, dataCap: nat, actions: seq<Action>)
    ensures var s := Run(Step, Initial(sendCap, dataCap), actions);
            && s.closes.dialDone <= 1 && s.closes.sendDone <= 1 && s.closes.sendCh <= 1 && s.closes.dataCh <= 1
            && Count(s.up, CleanClose) <= 1
            && (forall i, j | 0 <= i < j < |s.up| && s.up[i].CleanClose? :: !s.up[j].Data?)
  {
    Always(sendCap, dataCap, actions);
    OrderedCountsOnce(Run(Step, Initial(sendCap, dataCap), actions).up);
  }

  /** In every interleaving the bytes sent to the server are a prefix of the bytes
      read from the remote, and when the remote ended the stream they are all of
      them once the clean CLOSE_RSP is sent. */
  lemma SentIsPrefixOfRead(sendCap: nat, dataCap: nat, actions: seq<Action>)
    ensures var s := Run(Step, Initial(sendCap, dataCap), actions);
            && Sent(s) <= s.inflow.fromRemote
            && (CleanClose in s.up && s.inflow.remoteEnded ==> Sent(s) == s.inflow.fromRemote)
  {
    Always(sendCap, dataCap, actions);
  }

  /** In every interleaving the bytes written to the remote are a prefix of the
      bytes handed over for it, across partial writes, and all of them when the
      writer is done without a write that failed. */
  lemma WrittenIsPrefixOfPushed(sendCap: nat, dataCap: nat, actions: seq<Action>)
    ensures var s := Run(Step, Initial(sendCap, dataCap), actions).outflow;
            && s.toRemote <= Flat(s.pushed)
            && (s.writer.WriterDone? && s.unwritten == [] ==> s.toRemote == Flat(s.pushed))
  {
    Always(sendCap, dataCap, actions);
  }
}
