/** All endpoint connections of one agent client: the connection manager with its
    gauge. Each connection runs the endpoint protocol; the gauge is incremented by
    Add and decremented by Delete, whatever the map holds at that moment. */
module AgentConnections {
  import opened Runs
  import Endpoint = AgentEndpoint
  import EndpointProofs

  type ConnId = nat

  datatype State = State(nextConnID: ConnId, endpoints: map<ConnId, Endpoint.State>, gauge: int, cap: nat)

  datatype Action = DialRequest | At(conn: ConnId, action: Endpoint.Action)

  function Initial(cap: nat): State { State(0, map[], 0, cap) }

  /** The change of the gauge: Add when the remote was reached, Delete in cleanup. */
  function GaugeChange(s: Endpoint.State, a: Endpoint.Action): int {
    if a == Endpoint.Dial(Endpoint.Connect) && s.dialer.Connecting? then 1
    else if a == Endpoint.Clean(Endpoint.Delete) && s.cleaner.Deleting? then -1
    else 0
  }

  function Step(s: State, a: Action): State {
    match a
    case DialRequest =>
      var id := s.nextConnID + 1;
      s.(nextConnID := id, endpoints := s.endpoints[id := Endpoint.Initial(s.cap, s.cap)])
    case At(id, ea) =>
      if id in s.endpoints
      then s.(endpoints := s.endpoints[id := Endpoint.Step(s.endpoints[id], ea)],
              gauge := s.gauge + GaugeChange(s.endpoints[id], ea))
      else s
  }

  /** The connections the manager holds. */
  function Managed(s: State): set<ConnId> { ManagedIn(s.endpoints) }

  function ManagedIn(endpoints: map<ConnId, Endpoint.State>): set<ConnId> {
    set id | id in endpoints && endpoints[id].managed
  }

  ghost predicate EndpointsOk(endpoints: map<ConnId, Endpoint.State>, last: ConnId) {
    forall id | id in endpoints :: 0 < id <= last && EndpointProofs.Inv(endpoints[id])
  }

  ghost predicate Inv(s: State) { EndpointsOk(s.endpoints, s.nextConnID) && s.gauge == |Managed(s)| }

  /** One endpoint is new or has taken a step. */
  lemma OneChangedOk(endpoints: map<ConnId, Endpoint.State>, last: ConnId, id: ConnId, e: Endpoint.State)
    requires EndpointsOk(endpoints, last) && EndpointProofs.Inv(e) && 0 < id
    ensures EndpointsOk(endpoints[id := e], if id > last then id else last)
  {}

  lemma EndpointGauge(s: Endpoint.State, a: Endpoint.Action)
    requires EndpointProofs.ControlInv(s)
    ensures var t := Endpoint.Step(s, a);
            GaugeChange(s, a) == (if t.managed then 1 else 0) - (if s.managed then 1 else 0)
  {}

  /** What one endpoint's step does to the set of managed connections. */
  lemma ManagedAfter(endpoints: map<ConnId, Endpoint.State>, id: ConnId, e: Endpoint.State)
    ensures |ManagedIn(endpoints[id := e])| ==
            |ManagedIn(endpoints)| + (if e.managed then 1 else 0) - (if id in ManagedIn(endpoints) then 1 else 0)
  {
    var before, after := ManagedIn(endpoints), ManagedIn(endpoints[id := e]);
    assert after - {id} == before - {id};
    assert |before| == |before - {id}| + if id in before then 1 else 0;
    assert |after| == |after - {id}| + if id in after then 1 else 0;
  }

  lemma EndpointStepKeepsInv(s: State, id: ConnId, a: Endpoint.Action)
    requires Inv(s) && id in s.endpoints
    ensures Inv(Step(s, At(id, a)))
  {
    var e := Endpoint.Step(s.endpoints[id], a);
    EndpointProofs.StepKeepsInv(s.endpoints[id], a);
    EndpointGauge(s.endpoints[id], a);
    OneChangedOk(s.endpoints, s.nextConnID, id, e);
    ManagedAfter(s.endpoints, id, e);
  }

  lemma DialRequestKeepsInv(s: State)
    requires Inv(s)
    ensures Inv(Step(s, DialRequest))
  {
    var id, e := s.nextConnID + 1, Endpoint.Initial(s.cap, s.cap);
    assert id !in s.endpoints && !e.managed;
    NewEndpointOk(s.cap);
    OneChangedOk(s.endpoints, s.nextConnID, id, e);
    ManagedAfter(s.endpoints, id, e);
  }

  lemma NewEndpointOk(cap: nat)
    ensures EndpointProofs.Inv(Endpoint.Initial(cap, cap))
  {}

  lemma StepKeepsInv(s: State, a: Action)
    requires Inv(s)
    ensures Inv(Step(s, a))
  {
    match a
    case DialRequest => DialRequestKeepsInv(s);
    case At(id, ea) => if id in s.endpoints { EndpointStepKeepsInv(s, id, ea); }
  }

  /** In every run of any number of connections, the gauge is the number of
      connections managed, and every connection ID is nonzero and used once. */
  lemma GaugeCountsManaged(cap: nat, actions: seq<Action>)
    ensures var s := Run(Step, Initial(cap), actions);
            && s.gauge == |Managed(s)|
            && forall id | id in s.endpoints :: 0 < id <= s.nextConnID
  {
    forall t, a | Inv(t) ensures Inv(Step(t, a)) { StepKeepsInv(t, a); }
    assert Managed(Initial(cap)) == {};
    Invariance(Step, Inv, Initial(cap), actions);
  }
}
