/** The per-backend send queue: queueSend appends under queueMu and starts a
    sender goroutine if none runs; sendQueued takes packets one at a time and
    attempts to send each outside the lock. */
module SendQueue {
  import opened Runs

  /** A packet, by identity. */
  type Packet = nat

  /** One sendQueued goroutine: about to take queueMu, or holding a packet it has
      taken and not yet attempted to send. */
  datatype Sender = AtLock | Sending(packet: Packet)

  datatype State = State(
    queued: seq<Packet>,
    queueSending: bool,
    senders: map<nat, Sender>,
    spawned: nat,
    // History: packets handed to queueSend, and packets whose Send was attempted.
    accepted: seq<Packet>,
    attempted: seq<Packet>)

  datatype Action =
    | QueueSend(packet: Packet)
    | Take(goroutine: nat)
    | Attempt(goroutine: nat)

  const INITIAL := State([], false, map[], 0, [], [])

  function QueueStep(s: State, p: Packet): State {
    var t := s.(queued := s.queued + [p], accepted := s.accepted + [p]);
    if s.queueSending then t
    else t.(queueSending := true, senders := s.senders[s.spawned := AtLock], spawned := s.spawned + 1)
  }

  function TakeStep(s: State, g: nat): State
    requires g in s.senders
  {
    if s.queued == [] then s.(queueSending := false, senders := s.senders - {g})
    else s.(queued := s.queued[1..], senders := s.senders[g := Sending(s.queued[0])])
  }

  function Step(s: State, a: Action): State {
    match a
    case QueueSend(p) => QueueStep(s, p)
    case Take(g) => if g in s.senders && s.senders[g].AtLock? then TakeStep(s, g) else s
    case Attempt(g) =>
      if g in s.senders && s.senders[g].Sending? then
        s.(attempted := s.attempted + [s.senders[g].packet], senders := s.senders[g := AtLock])
      else s
  }

  /** The packets taken from the queue and not yet attempted. */
  function InHand(s: State): seq<Packet> {
    if s.spawned > 0 && s.spawned - 1 in s.senders && s.senders[s.spawned - 1].Sending?
    then [s.senders[s.spawned - 1].packet] else []
  }

  /** Only the goroutine spawned last can be running, and it runs exactly while
      queueSending is set. */
  ghost predicate OneSender(s: State) {
    && (s.queueSending ==> s.spawned > 0 && s.senders.Keys == {s.spawned - 1})
    && (!s.queueSending ==> s.senders == map[] && s.queued == [])
  }

  ghost predicate Inv(s: State) {
    && OneSender(s)
    && s.attempted + InHand(s) + s.queued == s.accepted
  }

  lemma StepKeepsInv(s: State, a: Action)
    requires Inv(s)
    ensures Inv(Step(s, a))
  {
    var t := Step(s, a);
    match a
    case QueueSend(p) =>
      assert t.attempted + InHand(t) + t.queued == s.attempted + InHand(s) + s.queued + [p];
    case Take(g) =>
      if t != s && s.queued != [] {
        assert s.queued == [s.queued[0]] + t.queued;
        assert t.attempted + InHand(t) + t.queued == s.attempted + InHand(s) + s.queued;
      }
    case Attempt(g) =>
      if t != s {
        assert t.attempted == s.attempted + InHand(s);
      }
  }

  /** In every reachable state nothing accepted is lost, duplicated or reordered,
      at most one sender runs, and a nonempty queue has a running sender. */
  lemma FifoOverAllRuns(actions: seq<Action>)
    ensures var s := Run(Step, INITIAL, actions);
            && s.attempted + InHand(s) + s.queued == s.accepted
            && |s.senders| <= 1
            && (s.queued != [] ==> |s.senders| == 1)
            && (|s.senders| == 1 <==> s.queueSending)
  {
    forall t, a | Inv(t) ensures Inv(Step(t, a)) { StepKeepsInv(t, a); }
    Invariance(Step, Inv, INITIAL, actions);
    var s := Run(Step, INITIAL, actions);
    if s.queueSending { assert |s.senders| == |s.senders.Keys| == 1; }
  }

  /** The steps the running sender takes until the queue is empty. */
  function Drain(s: State): seq<Action>
    decreases |s.queued|, |InHand(s)|
  {
    if !s.queueSending || s.spawned == 0 || s.spawned - 1 !in s.senders then []
    else
      var g := s.spawned - 1;
      if s.senders[g].Sending? then
        var t := Step(s, Attempt(g));
        [Attempt(g)] + Drain(t)
      else if s.queued == [] then [Take(g)]
      else [Take(g)] + Drain(Step(s, Take(g)))
  }

  lemma {:induction false} DrainEmpties(s: State)
    requires Inv(s)
    ensures var t := Run(Step, s, Drain(s));
            t.attempted == s.accepted && t.accepted == s.accepted && t.senders == map[] && !t.queueSending
    decreases |s.queued|, |InHand(s)|
  {
    if s.queueSending {
      var g := s.spawned - 1;
      var a := if s.senders[g].Sending? then Attempt(g) else Take(g);
      var t := Step(s, a);
      StepKeepsInv(s, a);
      assert Drain(s)[0] == a;
      if s.senders[g].Sending? || s.queued != [] {
        assert Drain(s)[1..] == Drain(t);
        DrainEmpties(t);
      } else {
        assert Drain(s) == [a];
        assert t.senders == map[];
        assert Run(Step, s, [a]) == Run(Step, t, []);
      }
    }
  }

  /** From every reachable state the sender, run on its own, attempts every
      accepted packet exactly once and in order, and then exits. */
  lemma EveryPacketIsAttempted(actions: seq<Action>)
    ensures var s := Run(Step, INITIAL, actions);
            var t := Run(Step, INITIAL, actions + Drain(s));
            t.attempted == s.accepted && t.senders == map[]
  {
    forall t, a | Inv(t) ensures Inv(Step(t, a)) { StepKeepsInv(t, a); }
    Invariance(Step, Inv, INITIAL, actions);
    var s := Run(Step, INITIAL, actions);
    Compose(Step, INITIAL, actions, Drain(s));
    DrainEmpties(s);
  }
}
