/** serverConn, the net.Conn over an agent tunnel: the receive side. Where the code
    waits, a method here reports that it would. */
module ServerConn {
  import opened Bytes
  import opened Options

  datatype CloseError = EndOfFile | AgentError(message: string) | LocalClose

  datatype ReadResult = Got(bytes: Bytes) | Failed(error: CloseError) | DeadlineExceeded | WouldBlock

  datatype SendResult = Accepted | Refused | Full

  // ----- The specification: a connection as a value -----

  datatype Sink = Sink(
    maxBuffered: nat, buffer: seq<Bytes>, rdata: Bytes,
    closed: bool, localClosed: bool, closeErr: Option<CloseError>)

  predicate Wellformed(k: Sink) { (k.closed <==> k.closeErr.Some?) && (k.localClosed ==> k.closed) }

  /** The bytes received and not yet read. */
  function Unread(k: Sink): Bytes { k.rdata + Flat(k.buffer) }

  function SendOutcome(k: Sink): SendResult {
    if k.closed then Refused else if |k.buffer| >= k.maxBuffered then Full else Accepted
  }

  function Accept(k: Sink, data: Bytes): Sink { k.(buffer := k.buffer + [data]) }

  /** The first close decides the error. */
  function CloseWith(k: Sink, e: CloseError): Sink {
    if k.closed then k else k.(closed := true, closeErr := Some(e))
  }

  function Shift(k: Sink): Sink
    requires k.buffer != []
  {
    k.(rdata := k.buffer[0], buffer := k.buffer[1..])
  }

  function Least(a: nat, b: nat): nat { if a < b then a else b }

  /** A Read of at most n bytes that meets no deadline. */
  function ReadFrom(k: Sink, n: nat): (Sink, ReadResult)
    decreases |k.buffer|
  {
    if k.localClosed then (k, Failed(LocalClose))
    else if k.rdata != [] then
      var m := Least(n, |k.rdata|);
      (k.(rdata := k.rdata[m..]), Got(k.rdata[..m]))
    else if k.buffer != [] then ReadFrom(Shift(k), n)
    else if k.closed then (k, Failed(if k.closeErr.Some? then k.closeErr.value else EndOfFile))
    else (k, WouldBlock)
  }

  function BytesOf(r: ReadResult): Bytes { if r.Got? then r.bytes else [] }

  lemma SplitFront(front: Bytes, m: nat, rest: Bytes)
    requires m <= |front|
    ensures front[..m] + (front[m..] + rest) == front + rest
  {}

  lemma ShiftKeepsUnread(k: Sink)
    requires k.rdata == [] && k.buffer != []
    ensures Unread(Shift(k)) == Unread(k)
  {
    FlatHead(k.buffer);
  }

  /** A Read returns the next unread bytes: none is skipped, repeated or lost, and it
      returns some if there are any and the caller has room. A close by the agent is
      reported only when nothing is left to read, a close by the reader at once. */
  lemma {:induction false} ReadFromConserves(k: Sink, n: nat)
    requires Wellformed(k)
    ensures var (k', r) := ReadFrom(k, n);
            && BytesOf(r) + Unread(k') == Unread(k)
            && k' == k.(buffer := k'.buffer, rdata := k'.rdata) && |k'.buffer| <= |k.buffer|
            && !r.DeadlineExceeded?
            && (r.Got? ==> !k.localClosed && |r.bytes| <= n && (n > 0 ==> r.bytes != []))
            && (k.localClosed ==> r == Failed(LocalClose))
            && (r.Failed? && !k.localClosed ==> Some(r.error) == k.closeErr && Unread(k) == [])
            && (r.WouldBlock? <==> !k.closed && Unread(k) == [])
    decreases |k.buffer|
  {
    if !k.localClosed && k.rdata != [] {
      SplitFront(k.rdata, Least(n, |k.rdata|), Flat(k.buffer));
    } else if !k.localClosed && k.buffer != [] {
      ShiftKeepsUnread(k);
      ReadFromConserves(Shift(k), n);
    }
  }

  // ----- The object -----

  class Conn {
    const maxBuffered: nat
    var connID: nat
    var connected: bool
    var buffer: seq<Bytes>
    var rdata: Bytes
    var closed: bool
    var localClosed: bool
    var closeErr: Option<CloseError>

    ghost predicate Valid()
      reads this
    {
      0 < maxBuffered && |buffer| <= maxBuffered && Wellformed(State())
    }

    ghost function State(): Sink
      reads this
    {
      Sink(maxBuffered, buffer, rdata, closed, localClosed, closeErr)
    }

    constructor (frontendWriteChannelSize: int)
      ensures Valid() && !connected && connID == 0
      ensures State() == Sink(if frontendWriteChannelSize > 1 then frontendWriteChannelSize else 1,
                              [], [], false, false, None)
    {
      maxBuffered := if frontendWriteChannelSize > 1 then frontendWriteChannelSize else 1;
      connID, connected, buffer, rdata, closed, localClosed, closeErr := 0, false, [], [], false, false, None;
    }

    /** A successful DIAL_RSP: refused once the connection is closed. */
    method HandleDialSuccess(conn: nat) returns (ok: bool)
      requires Valid()
      modifies this`connID, this`connected
      ensures Valid() && ok == !closed
      ensures if ok then connID == conn && connected else connID == old(connID) && connected == old(connected)
    {
      if closed {
        return false;
      }
      connID := conn;
      connected := true;
      return true;
    }

    /** A DATA packet: it is refused once the connection is closed, waits while the
        buffer is full, and otherwise adds its bytes behind the unread ones. */
    method HandleData(data: Bytes) returns (r: SendResult)
      requires Valid()
      modifies this`buffer
      ensures Valid() && r == SendOutcome(old(State()))
      ensures State() == if r.Accepted? then Accept(old(State()), data) else old(State())
      ensures Unread(State()) == Unread(old(State())) + (if r.Accepted? then data else [])
    {
      if closed {
        return Refused;
      }
      if |buffer| >= maxBuffered {
        return Full;
      }
      FlatAppend(buffer, data);
      buffer := buffer + [data];
      return Accepted;
    }

    /** CLOSE_RSP: what was received stays readable. */
    method HandleClose(message: string)
      requires Valid()
      modifies this`closed, this`closeErr
      ensures Valid() && closed
      ensures State() == CloseWith(old(State()), if message != "" then AgentError(message) else EndOfFile)
    {
      if !closed {
        closed := true;
        if message != "" {
          closeErr := Some(AgentError(message));
        } else {
          closeErr := Some(EndOfFile);
        }
      }
    }

    /** Close, its first part: unread bytes are given up. Returns the connection ID
        that Close goes on with. */
    method MarkClosed() returns (conn: nat)
      requires Valid()
      modifies this`closed, this`localClosed, this`closeErr
      ensures Valid() && conn == connID
      ensures State() == CloseWith(old(State()), LocalClose).(localClosed := true)
    {
      closed, localClosed := true, true;
      if closeErr.None? {
        closeErr := Some(LocalClose);
      }
      return connID;
    }

    /** The clock has reached the read deadline, or not: time passes between
        iterations. */
    method Expired(deadlineSet: bool) returns (expired: bool)
      ensures expired ==> deadlineSet
    {
      expired :| expired ==> deadlineSet;
    }

    /** Read. Unless the deadline passes, it is the specification; if it passes, no
        byte is lost. */
    method Read(n: nat, deadlineSet: bool) returns (r: ReadResult)
      requires Valid()
      modifies this`rdata, this`buffer
      ensures Valid()
      ensures r.DeadlineExceeded? ==> deadlineSet && !localClosed && Unread(State()) == Unread(old(State()))
      ensures !r.DeadlineExceeded? ==> (State(), r) == ReadFrom(old(State()), n)
    {
      while true
        invariant Valid() && Unread(State()) == Unread(old(State()))
        invariant ReadFrom(State(), n) == ReadFrom(old(State()), n)
        decreases |buffer|
      {
        if localClosed {
          return Failed(LocalClose);
        }
        var expired := Expired(deadlineSet);
        if expired {
          return DeadlineExceeded;
        }
        if |rdata| > 0 {
          var m := Least(n, |rdata|);
          r := Got(rdata[..m]);
          rdata := rdata[m..];
          return;
        }
        if |buffer| > 0 {
          ShiftKeepsUnread(State());
          rdata := buffer[0];
          buffer := buffer[1..];
        } else if closed {
          if closeErr.Some? {
            return Failed(closeErr.value);
          }
          return Failed(EndOfFile);
        } else {
          return WouldBlock;
        }
      }
    }
  }
}
