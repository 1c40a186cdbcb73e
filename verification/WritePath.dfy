/** The path of the bytes of one connection from the caller of Write, through the DATA
    packets on the agent stream, the agent's receive loop and dataCh, to the remote. */
module WritePath {
  import opened Bytes
  import opened Runs
  import Agent = AgentEndpoint
  import EndpointProofs
  import Server = WriteSide

  /** taken: the packets of the stream that the agent's receive loop has taken. */
  datatype State = State(write: Server.State, agent: Agent.State, taken: nat)

  /** Deliver: the agent's receive loop takes the next packet; ok is whether it could
      answer a packet for a connection it does not manage. */
  datatype Action = OnWrite(write: Server.Action) | OnAgent(agent: Agent.Action) | Deliver(ok: bool)

  function Initial(sendCap: nat, dataCap: nat): State { State(Server.INITIAL, Agent.Initial(sendCap, dataCap), 0) }

  /** The agent receives DATA from the stream only. */
  function Step(s: State, a: Action): State {
    match a
    case OnWrite(b) => s.(write := Server.Step(s.write, b))
    case OnAgent(b) => if b.ReceiveData? then s else s.(agent := Agent.Step(s.agent, b))
    case Deliver(ok) =>
      if s.taken < |s.write.log.wire| && Agent.CanReceive(s.agent) then
        s.(agent := Agent.Step(s.agent, Agent.ReceiveData(s.write.log.wire[s.taken].data, ok)), taken := s.taken + 1)
      else s
  }

  // ----- What every interleaving keeps -----

  /** The bytes of the packets that were taken. */
  function Arrived(s: State): Bytes
    requires s.taken <= |s.write.log.wire|
  {
    Payload(Server.DataOf, s.write.log.wire[..s.taken])
  }

  function PusherHand(f: Agent.Outflow): Bytes { if f.pusher.Pushing? then f.pusher.data else [] }

  predicate DataClosed(s: Agent.State) { s.closes.dataCh > 0 }

  /** What was put into dataCh is a prefix of what arrived, and with the chunk in hand all
      of it until dataCh is closed. */
  ghost predicate PathInv(s: Agent.State, arrived: Bytes) {
    && Flat(s.outflow.pushed) <= arrived
    && (!DataClosed(s) ==> Flat(s.outflow.pushed) + PusherHand(s.outflow) == arrived)
  }

  /** The agent has taken the first packets of the stream. */
  ghost predicate TakenOk(wire: seq<Server.Packet>, taken: nat, agent: Agent.State) {
    taken <= |wire| && PathInv(agent, Payload(Server.DataOf, wire[..taken]))
  }

  ghost predicate Inv(s: State) {
    Server.Inv(s.write) && EndpointProofs.Inv(s.agent) && TakenOk(s.write.log.wire, s.taken, s.agent)
  }

  lemma LongerKeepsTaken(wire: seq<Server.Packet>, longer: seq<Server.Packet>, taken: nat, agent: Agent.State)
    requires TakenOk(wire, taken, agent) && wire <= longer
    ensures TakenOk(longer, taken, agent)
  {
    assert longer[..taken] == wire[..taken];
  }

  lemma SendGrows(s: Server.State, a: Server.Action)
    requires a.Current? || a.Left?
    ensures s.log.wire <= Server.Step(s, a).log.wire
  {
    var t := Server.Step(s, a);
    if t != s {
      if a.Current? {
        assert t == Server.CurrentStep(s, s.writer.send, t.writer.send.phase);
      } else {
        assert t == Server.LeftStep(s, a.i, t.left[a.i].phase);
      }
    }
  }

  lemma WireGrows(s: Server.State, a: Server.Action)
    ensures s.log.wire <= Server.Step(s, a).log.wire
  {
    if a.Current? || a.Left? { SendGrows(s, a); } else { assert Server.Step(s, a).log.wire == s.log.wire; }
  }

  lemma WriteKeepsInv(s: State, a: Server.Action)
    requires Inv(s)
    ensures Inv(Step(s, OnWrite(a)))
  {
    Server.StepKeepsInv(s.write, a);
    WireGrows(s.write, a);
    LongerKeepsTaken(s.write.log.wire, Server.Step(s.write, a).log.wire, s.taken, s.agent);
  }

  lemma PushKeepsPath(s: Agent.State, op: Agent.WriteOp, arrived: Bytes)
    requires PathInv(s, arrived)
    ensures PathInv(Agent.Step(s, Agent.ToRemote(op)), arrived)
  {
    var f := s.outflow;
    var g := Agent.WriteStep(f, op, DataClosed(s));
    if g.pushed != f.pushed {
      FlatAppend(f.pushed, f.pusher.data);
      assert Flat(g.pushed) + [] == Flat(g.pushed);
    }
  }

  /** Nothing is pushed, and a closed channel stays closed. */
  predicate Aside(s: Agent.State, t: Agent.State) {
    && t.outflow.pushed == s.outflow.pushed && t.outflow.pusher == s.outflow.pusher
    && (DataClosed(s) ==> DataClosed(t))
  }

  lemma DialIsAside(s: Agent.State, op: Agent.DialOp)
    ensures Aside(s, Agent.DialStep(s, op))
  {}

  lemma CleanIsAside(s: Agent.State, op: Agent.CleanOp)
    ensures Aside(s, Agent.CleanStep(s, op))
  {}

  lemma SendIsAside(s: Agent.State, op: Agent.SendOp)
    ensures Aside(s, Agent.SendStep(s, op))
  {}

  lemma AgentKeepsPath(s: Agent.State, a: Agent.Action, arrived: Bytes)
    requires PathInv(s, arrived) && !a.ReceiveData?
    ensures PathInv(Agent.Step(s, a), arrived)
  {
    match a
    case ToRemote(op) => PushKeepsPath(s, op, arrived);
    case Dial(op) => DialIsAside(s, op);
    case Clean(op) => CleanIsAside(s, op);
    case ToServer(op) => SendIsAside(s, op);
    case ReceiveClose(_) => CleanIsAside(s, Agent.Call);
    case FromRemote(_) =>
    case Stop =>
  }

  /** Until dataCh is closed, a connection the server was told of is managed. */
  ghost predicate OpenIsManaged(s: Agent.State) { Agent.CanReceive(s) && !DataClosed(s) ==> s.managed }

  lemma InvMeansManaged(s: Agent.State)
    requires EndpointProofs.Inv(s)
    ensures OpenIsManaged(s)
  {}

  lemma ReceiveKeepsPath(s: Agent.State, data: Bytes, ok: bool, arrived: Bytes)
    requires OpenIsManaged(s) && Agent.CanReceive(s) && PathInv(s, arrived)
    ensures PathInv(Agent.Step(s, Agent.ReceiveData(data, ok)), arrived + data)
  {
    assert Flat(s.outflow.pushed) + [] == Flat(s.outflow.pushed);
  }

  lemma TakeKeepsTaken(wire: seq<Server.Packet>, taken: nat, agent: Agent.State, ok: bool)
    requires TakenOk(wire, taken, agent) && taken < |wire| && OpenIsManaged(agent) && Agent.CanReceive(agent)
    ensures TakenOk(wire, taken + 1, Agent.Step(agent, Agent.ReceiveData(wire[taken].data, ok)))
  {
    ReceiveKeepsPath(agent, wire[taken].data, ok, Payload(Server.DataOf, wire[..taken]));
    assert wire[..taken + 1] == wire[..taken] + [wire[taken]];
    PayloadAppend(Server.DataOf, wire[..taken], wire[taken]);
  }

  lemma TakeKeepsAgent(wire: seq<Server.Packet>, taken: nat, agent: Agent.State, ok: bool)
    requires TakenOk(wire, taken, agent) && taken < |wire| && EndpointProofs.Inv(agent) && Agent.CanReceive(agent)
    ensures var e := Agent.Step(agent, Agent.ReceiveData(wire[taken].data, ok));
            EndpointProofs.Inv(e) && TakenOk(wire, taken + 1, e)
  {
    EndpointProofs.StepKeepsInv(agent, Agent.ReceiveData(wire[taken].data, ok));
    InvMeansManaged(agent);
    TakeKeepsTaken(wire, taken, agent, ok);
  }

  lemma DeliverKeepsInv(s: State, ok: bool)
    requires Inv(s) && s.taken < |s.write.log.wire| && Agent.CanReceive(s.agent)
    ensures Inv(Step(s, Deliver(ok)))
  {
    TakeKeepsAgent(s.write.log.wire, s.taken, s.agent, ok);
  }

  lemma AgentKeepsInv(s: State, a: Agent.Action)
    requires Inv(s) && !a.ReceiveData?
    ensures Inv(Step(s, OnAgent(a)))
  {
    EndpointProofs.StepKeepsInv(s.agent, a);
    AgentKeepsPath(s.agent, a, Arrived(s));
  }

  lemma StepKeepsInv(s: State, a: Action)
    requires Inv(s)
    ensures Inv(Step(s, a))
  {
    if Step(s, a) != s {
      match a
      case OnWrite(b) => WriteKeepsInv(s, b);
      case OnAgent(b) => AgentKeepsInv(s, b);
      case Deliver(ok) => DeliverKeepsInv(s, ok);
    }
  }

  lemma Always(sendCap: nat, dataCap: nat, actions: seq<Action>)
    ensures Inv(Run(Step, Initial(sendCap, dataCap), actions))
  {
    forall t, a | Inv(t) ensures Inv(Step(t, a)) { StepKeepsInv(t, a); }
    Invariance(Step, Inv, Initial(sendCap, dataCap), actions);
  }

  // ----- The theorems -----

  lemma PrefixTrans(a: Bytes, b: Bytes, c: Bytes)
    requires a <= b <= c
    ensures a <= c
  {}

  /** In every interleaving the bytes written to the remote are a prefix of the bytes on
      the stream, so once no Write is in progress a prefix of what the Writes reported
      as written and at most one chunk more. Until the agent closes dataCh, every byte
      it has taken is written, in dataCh, in a hand or lost to a failed write, in that
      order. */
  lemma RemoteGetsPrefixOfReported(sendCap: nat, dataCap: nat, actions: seq<Action>)
    ensures var s := Run(Step, Initial(sendCap, dataCap), actions);
            var f, log := s.agent.outflow, s.write.log;
            && f.toRemote <= Server.Wire(log)
            && (s.write.writer.Idle? ==> f.toRemote <= Server.Reported(log) + Flat(log.extra))
            && |log.extra| <= 1
            && s.taken <= |log.wire|
            && (!DataClosed(s.agent) ==>
                  Arrived(s) == f.toRemote + EndpointProofs.BehindOut(f) + PusherHand(f))
  {
    Always(sendCap, dataCap, actions);
    var s := Run(Step, Initial(sendCap, dataCap), actions);
    var log := s.write.log;
    PayloadOfPrefix(Server.DataOf, log.wire, s.taken);
    PrefixTrans(s.agent.outflow.toRemote, Flat(s.agent.outflow.pushed), Arrived(s));
    PrefixTrans(s.agent.outflow.toRemote, Arrived(s), Server.Wire(log));
    if s.write.writer.Idle? {
      assert log.extra + [] == log.extra && Server.Reported(log) + [] == Server.Reported(log);
    }
  }

  // ----- Writes do reach the remote -----

  lemma {:induction false} WritesReach(s0: State, s: State, actions: seq<Server.Action>)
    requires Reaches(Step, s0, s)
    ensures Reaches(Step, s0, s.(write := Run(Server.Step, s.write, actions)))
    decreases |actions|
  {
    if actions != [] {
      ReachesNext(Step, s0, s, OnWrite(actions[0]));
      WritesReach(s0, Step(s, OnWrite(actions[0])), actions[1..]);
    }
  }

  /** The agent is up, and has written everything it has taken. */
  predicate Caught(s: State) {
    && s.agent.managed && Agent.DialOk in s.agent.up && !DataClosed(s.agent)
    && s.agent.outflow.pusher.NotPushing? && s.agent.outflow.writer.Waiting? && s.agent.outflow.queue == []
    && s.taken <= |s.write.log.wire| && s.agent.outflow.toRemote == Arrived(s)
  }

  /** A chunk passes through dataCh to the remote. */
  lemma WriteOne(s0: State, s: State) returns (t: State)
    requires Reaches(Step, s0, s) && s.agent.outflow.pusher.Pushing? && !DataClosed(s.agent)
    requires s.agent.outflow.writer.Waiting? && s.agent.outflow.queue == []
    ensures Reaches(Step, s0, t) && t.write == s.write && t.taken == s.taken
    ensures var f, data := s.agent.outflow, s.agent.outflow.pusher.data;
            t.agent == s.agent.(outflow := f.(pusher := Agent.NotPushing, pushed := f.pushed + [data],
                                              toRemote := f.toRemote + data))
  {
    ReachesNext(Step, s0, s, OnAgent(Agent.ToRemote(Agent.Push)));
    t := Step(s, OnAgent(Agent.ToRemote(Agent.Push)));
    ReachesNext(Step, s0, t, OnAgent(Agent.ToRemote(Agent.TakeChunk)));
    t := Step(t, OnAgent(Agent.ToRemote(Agent.TakeChunk)));
    ReachesNext(Step, s0, t, OnAgent(Agent.ToRemote(Agent.WriteAll)));
    t := Step(t, OnAgent(Agent.ToRemote(Agent.WriteAll)));
  }

  lemma DeliverOne(s0: State, s: State) returns (t: State)
    requires Reaches(Step, s0, s) && Caught(s) && s.taken < |s.write.log.wire|
    ensures Reaches(Step, s0, t) && Caught(t) && t.write == s.write && t.taken == s.taken + 1
  {
    var wire := s.write.log.wire;
    ReachesNext(Step, s0, s, Deliver(true));
    t := WriteOne(s0, Step(s, Deliver(true)));
    assert wire[..s.taken + 1] == wire[..s.taken] + [wire[s.taken]];
    PayloadAppend(Server.DataOf, wire[..s.taken], wire[s.taken]);
  }

  lemma {:induction false} DeliverRest(s0: State, s: State) returns (t: State)
    requires Reaches(Step, s0, s) && Caught(s)
    ensures Reaches(Step, s0, t) && Caught(t) && t.write == s.write && t.taken == |s.write.log.wire|
    decreases |s.write.log.wire| - s.taken
  {
    t := s;
    if s.taken < |s.write.log.wire| {
      t := DeliverOne(s0, s);
      t := DeliverRest(s0, t);
    }
  }

  lemma StartUp(sendCap: nat, dataCap: nat) returns (s: State)
    ensures Reaches(Step, Initial(sendCap, dataCap), s) && Caught(s) && s.write == Server.INITIAL && s.taken == 0
  {
    var s0 := Initial(sendCap, dataCap);
    ReachesSelf(Step, s0);
    ReachesNext(Step, s0, s0, OnAgent(Agent.Dial(Agent.Connect)));
    s := Step(s0, OnAgent(Agent.Dial(Agent.Connect)));
    ReachesNext(Step, s0, s, OnAgent(Agent.Dial(Agent.Answer(true))));
    s := Step(s, OnAgent(Agent.Dial(Agent.Answer(true))));
  }

  /** Any sequence of Writes can all succeed and all their bytes reach the remote, in
      order, whatever the capacity of the agent's channels. */
  lemma EveryWriteCanReachRemote(sendCap: nat, dataCap: nat, bs: seq<Bytes>)
    ensures exists actions :: var s := Run(Step, Initial(sendCap, dataCap), actions);
              && s.write.writer.Idle? && |s.write.log.results| == |bs|
              && (forall i | 0 <= i < |bs| :: s.write.log.results[i] == Server.Result(bs[i], |bs[i]|, true))
              && s.agent.outflow.toRemote == Flat(bs)
  {
    var s0 := Initial(sendCap, dataCap);
    var s := StartUp(sendCap, dataCap);
    var t := Server.WriteAll(bs);
    Server.ReachedInv(t);
    Server.IdleCarriesReported(t, bs);
    var writes :| Run(Server.Step, Server.INITIAL, writes) == t;
    WritesReach(s0, s, writes);
    s := DeliverRest(s0, s.(write := t));
    assert t.log.wire[..s.taken] == t.log.wire;
    var actions :| Run(Step, s0, actions) == s;
  }
}
