/** One endpoint connection of the agent: the goroutine that dials the remote,
    the three that copy bytes, the receive loop of the client, and the cleanup that
    any of them may start and sync.Once runs once.

    Channels are queues with a count of how often they were closed, so that a
    double close would be visible. Every action is one channel operation, one packet
    send or one system call. */
module AgentEndpoint {
  import opened Bytes

  /** What the agent sends to the server about this connection. CleanClose is the
      CLOSE_RSP of the cleanup, ErrorClose the CLOSE_RSP for an ID it does not know. */
  datatype Up = DialOk | DialError | Data(payload: Bytes) | CleanClose | ErrorClose

  /** The goroutine started for DIAL_REQ. */
  datatype Dialer = Connecting | Refused | RefusalSent | Connected | Answered | AnswerFailed | DialEnded

  /** cleanFunc. */
  datatype Cleaner =
    | NotCalled | WaitDial | ClosingSend | WaitSend | SendingClose | ClosingData | Deleting | ClosingConn | Cleaned

  /** remoteToSendChannel. */
  datatype Reader = NoReader | Reading | Holding(data: Bytes) | Leaving | Left

  /** sendChannelToProxy. */
  datatype Sender = NoSender | Taking | Sending(data: Bytes) | Draining | Finishing | SenderDone

  /** dataChannelToRemote: writing the rest of a chunk. */
  datatype Writer = NoWriter | Waiting | Writing(rest: Bytes) | Discarding | WriterDone

  /** The receive loop, in sendViaDataChannel. */
  datatype Pusher = NotPushing | Pushing(data: Bytes)

  /** How often each channel was closed. */
  datatype Signals = Signals(dialDone: nat, sendDone: nat, sendCh: nat, dataCh: nat)

  /** The bytes from the remote to the server, through sendCh. */
  datatype Inflow = Inflow(
    reader: Reader, sender: Sender, queue: seq<Bytes>, cap: nat,
    // history
    fromRemote: Bytes,       // bytes read from the remote
    undelivered: Bytes,      // bytes the sender could not send or discarded afterwards
    discarded: Bytes,        // bytes the reader held when it left
    remoteEnded: bool)       // the reader left because the remote ended or failed

  /** The bytes from the server to the remote, through dataCh. */
  datatype Outflow = Outflow(
    writer: Writer, pusher: Pusher, queue: seq<Bytes>, cap: nat,
    // history
    pushed: seq<Bytes>,      // chunks put into dataCh
    toRemote: Bytes,         // bytes written to the remote
    unwritten: Bytes)        // bytes the writer could not write or discarded afterwards

  datatype State = State(
    dialer: Dialer, cleaner: Cleaner, closes: Signals, managed: bool,
    broken: bool,            // a send to the server has failed, so every later one fails
    stopped: bool,           // stopCh is closed
    inflow: Inflow, outflow: Outflow,
    up: seq<Up>)             // the packets sent to the server

  function Initial(sendCap: nat, dataCap: nat): State {
    State(Connecting, NotCalled, Signals(0, 0, 0, 0), false, false, false,
          Inflow(NoReader, NoSender, [], sendCap, [], [], [], false),
          Outflow(NoWriter, NotPushing, [], dataCap, [], [], []),
          [])
  }

  datatype DialOp = Connect | Refuse | SendRefusal(ok: bool) | CloseSendDone | Answer(ok: bool) | EndDial

  datatype CleanOp = Call | DialSeen | CloseSendCh | SendSeen | SendClose(ok: bool) | CloseDataCh | Delete | CloseConn

  datatype ReadOp = Read(data: Bytes) | ReadEnds | Put | PanicOnClosed | StopSeen | Leave

  datatype SendOp = Take | SendData(ok: bool) | Discard | SeeEnd | SignalDone

  datatype WriteOp =
    | TakeChunk | WriteAll | WriteSome(n: nat) | WriteFails | DiscardChunk | SeeDataEnd | Push | PanicOnPush

  datatype Action =
    | Dial(dial: DialOp) | Clean(clean: CleanOp) | FromRemote(read: ReadOp) | ToServer(send: SendOp)
    | ToRemote(write: WriteOp)
    | ReceiveData(data: Bytes, ok: bool) | ReceiveClose(ok: bool)
    | Stop

  /** A send to the server that succeeds appends the packet. */
  function Emit(s: State, p: Up): State { s.(up := s.up + [p]) }

  /** A send that fails: so will all later ones. */
  function Break(s: State): State { s.(broken := true) }

  predicate CanSend(s: State, ok: bool) { ok ==> !s.broken }

  function Spawn(s: State): State {
    s.(inflow := s.inflow.(reader := Reading, sender := Taking), outflow := s.outflow.(writer := Waiting))
  }

  function DialStep(s: State, op: DialOp): State {
    match op
    case Connect => if s.dialer.Connecting? then s.(dialer := Connected, managed := true) else s
    case Refuse => if s.dialer.Connecting? then s.(dialer := Refused) else s
    case SendRefusal(ok) =>
      if s.dialer.Refused? && CanSend(s, ok) then
        if ok then Emit(s, DialError).(dialer := RefusalSent) else Break(s).(dialer := RefusalSent)
      else s
    case CloseSendDone =>
      if s.dialer.RefusalSent? || s.dialer.AnswerFailed?
      then s.(closes := s.closes.(sendDone := s.closes.sendDone + 1), dialer := Answered) else s
    case Answer(ok) =>
      if s.dialer.Connected? && CanSend(s, ok) then
        if ok then Spawn(Emit(s, DialOk)).(dialer := Answered) else Break(s).(dialer := AnswerFailed)
      else s
    case EndDial =>
      if s.dialer.Answered? then s.(dialer := DialEnded, closes := s.closes.(dialDone := s.closes.dialDone + 1)) else s
  }

  /** Cleanup is started by the reader when it leaves, by the receive loop for a
      managed connection, or after a failed DIAL_RSP. */
  function CleanStep(s: State, op: CleanOp): State {
    match op
    case Call => if s.cleaner.NotCalled? && s.managed then s.(cleaner := WaitDial) else s
    case DialSeen => if s.cleaner.WaitDial? && s.closes.dialDone > 0 then s.(cleaner := ClosingSend) else s
    case CloseSendCh =>
      if s.cleaner.ClosingSend?
      then s.(cleaner := WaitSend, closes := s.closes.(sendCh := s.closes.sendCh + 1)) else s
    case SendSeen => if s.cleaner.WaitSend? && s.closes.sendDone > 0 then s.(cleaner := SendingClose) else s
    case SendClose(ok) =>
      if s.cleaner.SendingClose? && CanSend(s, ok) then
        if ok then Emit(s, CleanClose).(cleaner := ClosingData) else Break(s).(cleaner := ClosingData)
      else s
    case CloseDataCh =>
      if s.cleaner.ClosingData?
      then s.(cleaner := Deleting, closes := s.closes.(dataCh := s.closes.dataCh + 1)) else s
    case Delete => if s.cleaner.Deleting? then s.(cleaner := ClosingConn, managed := false) else s
    case CloseConn => if s.cleaner.ClosingConn? then s.(cleaner := Cleaned) else s
  }

  /** A bounded channel takes another item if it has room or a receiver waits for it. */
  predicate Room(queue: seq<Bytes>, cap: nat, receiverWaits: bool) { |queue| < cap || (queue == [] && receiverWaits) }

  /** The reader; sendClosed and stopped are whether sendCh and stopCh are closed. */
  function ReadStep(f: Inflow, op: ReadOp, sendClosed: bool, stopped: bool, cleaning: bool): Inflow {
    match op
    case Read(data) =>
      if f.reader.Reading? && |data| <= 4096 then f.(reader := Holding(data), fromRemote := f.fromRemote + data) else f
    case ReadEnds => if f.reader.Reading? then f.(reader := Leaving, remoteEnded := true) else f
    case Put =>
      if f.reader.Holding? && !sendClosed && Room(f.queue, f.cap, f.sender.Taking? || f.sender.Draining?)
      then f.(queue := f.queue + [f.reader.data], reader := Reading) else f
    case PanicOnClosed =>
      if f.reader.Holding? && sendClosed then f.(discarded := f.reader.data, reader := Leaving) else f
    case StopSeen => if f.reader.Holding? && stopped then f.(discarded := f.reader.data, reader := Leaving) else f
    case Leave => if f.reader.Leaving? && cleaning then f.(reader := Left) else f
  }

  function SendStep(s: State, op: SendOp): State {
    var f := s.inflow;
    match op
    case Take =>
      if f.sender.Taking? && f.queue != []
      then s.(inflow := f.(sender := Sending(f.queue[0]), queue := f.queue[1..])) else s
    case SendData(ok) =>
      if f.sender.Sending? && CanSend(s, ok) then
        if ok then Emit(s, Data(f.sender.data)).(inflow := f.(sender := Taking))
        else Break(s).(inflow := f.(sender := Draining, undelivered := f.undelivered + f.sender.data))
      else s
    case Discard =>
      if f.sender.Draining? && f.queue != []
      then s.(inflow := f.(undelivered := f.undelivered + f.queue[0], queue := f.queue[1..])) else s
    case SeeEnd =>
      if (f.sender.Taking? || f.sender.Draining?) && f.queue == [] && s.closes.sendCh > 0
      then s.(inflow := f.(sender := Finishing)) else s
    case SignalDone =>
      if f.sender.Finishing?
      then s.(inflow := f.(sender := SenderDone), closes := s.closes.(sendDone := s.closes.sendDone + 1)) else s
  }

  /** The writer, and the receive loop where it puts a chunk into dataCh. */
  function WriteStep(f: Outflow, op: WriteOp, dataClosed: bool): Outflow {
    match op
    case TakeChunk =>
      if f.writer.Waiting? && f.queue != [] then f.(writer := Writing(f.queue[0]), queue := f.queue[1..]) else f
    case WriteAll =>
      if f.writer.Writing? then f.(toRemote := f.toRemote + f.writer.rest, writer := Waiting) else f
    case WriteSome(n) =>
      if f.writer.Writing? && 0 < n <= |f.writer.rest|
      then f.(toRemote := f.toRemote + f.writer.rest[..n], writer := Writing(f.writer.rest[n..])) else f
    case WriteFails =>
      if f.writer.Writing? then f.(unwritten := f.unwritten + f.writer.rest, writer := Discarding) else f
    case DiscardChunk =>
      if f.writer.Discarding? && f.queue != []
      then f.(unwritten := f.unwritten + f.queue[0], queue := f.queue[1..]) else f
    case SeeDataEnd =>
      if (f.writer.Waiting? || f.writer.Discarding?) && f.queue == [] && dataClosed then f.(writer := WriterDone) else f
    case Push =>
      if f.pusher.Pushing? && !dataClosed && Room(f.queue, f.cap, f.writer.Waiting? || f.writer.Discarding?)
      then f.(queue := f.queue + [f.pusher.data], pushed := f.pushed + [f.pusher.data], pusher := NotPushing) else f
    case PanicOnPush => if f.pusher.Pushing? && dataClosed then f.(pusher := NotPushing) else f
  }

  /** The receive loop is free, and the server has been told of the connection: it
      mentions no other. */
  predicate CanReceive(s: State) { s.outflow.pusher.NotPushing? && DialOk in s.up }

  /** The answer to a packet for a connection that is not managed. */
  function Unknown(s: State, ok: bool): State {
    if !CanSend(s, ok) then s else if ok then Emit(s, ErrorClose) else Break(s)
  }

  function Step(s: State, a: Action): State {
    match a
    case Dial(op) => DialStep(s, op)
    case Clean(op) => CleanStep(s, op)
    case FromRemote(op) => s.(inflow := ReadStep(s.inflow, op, s.closes.sendCh > 0, s.stopped, !s.cleaner.NotCalled?))
    case ToServer(op) => SendStep(s, op)
    case ToRemote(op) => s.(outflow := WriteStep(s.outflow, op, s.closes.dataCh > 0))
    case ReceiveData(data, ok) =>
      if !CanReceive(s) then s
      else if s.managed then s.(outflow := s.outflow.(pusher := Pushing(data)))
      else Unknown(s, ok)
    case ReceiveClose(ok) =>
      if !CanReceive(s) then s else if s.managed then CleanStep(s, Call) else Unknown(s, ok)
    case Stop => s.(stopped := true)
  }
}
