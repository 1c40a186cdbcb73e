/** ClientSet: the agent's clients, one per proxy server. Clients are numbered in the
    order they were created; a client is closed by the sync loop that could not
    register it, or by whoever takes it out of the set. */
module ClientSet {
  import opened Options
  import opened Runs
  import opened Ranging

  type ServerId = string
  type Client = nat

  /** A client: its server, how often Close closed its stopCh, and how often
      removeClient returned true for it. */
  datatype Info = Info(server: ServerId, closes: nat, removed: nat)

  datatype State = State(
    clients: map<ServerId, Client>,
    infos: seq<Info>,
    holding: Option<Client>,       // connected by the sync loop and not yet registered
    rejected: Option<Client>,      // refused by AddClient, about to be closed
    ended: bool)                   // the sync loop has ended

  const INITIAL := State(map[], [], None, None, false)

  // ----- The specification -----

  function Closed(infos: seq<Info>, c: Client): seq<Info> {
    if c < |infos| then infos[c := infos[c].(closes := infos[c].closes + 1)] else infos
  }

  predicate Registered(s: State, c: Client) {
    c < |s.infos| && s.infos[c].server in s.clients && s.clients[s.infos[c].server] == c
  }

  /** AddClient: refused for a server that has a client. */
  function Add(s: State, server: ServerId, c: Client): State {
    if server in s.clients then s else s.(clients := s.clients[server := c])
  }

  /** RemoveClient. */
  function RemoveServer(s: State, server: ServerId): State {
    if server !in s.clients then s
    else s.(clients := s.clients - {server}, infos := Closed(s.infos, s.clients[server]))
  }

  /** removeClient: only the client that is still registered is removed. */
  function RemoveOwn(s: State, c: Client): State {
    if !Registered(s, c) then s
    else
      var infos := Closed(s.infos, c);
      s.(clients := s.clients - {s.infos[c].server}, infos := infos[c := infos[c].(removed := infos[c].removed + 1)])
  }

  /** shutdown. */
  function Shutdown(s: State): State {
    s.(clients := map[],
       infos := seq(|s.infos|, c requires 0 <= c < |s.infos| =>
                      if Registered(s, c) then s.infos[c].(closes := s.infos[c].closes + 1) else s.infos[c]))
  }

  // ----- Every interleaving -----

  /** Connect, Register and CloseRejected are connectOnce; Remove is removeClient, called
      for any client by its own goroutines; Shutdown ends the sync loop. */
  datatype Action =
    | Connect(server: ServerId) | Register | CloseRejected | RemoveByServer(id: ServerId) | Remove(c: Client) | End

  function Step(s: State, a: Action): State {
    match a
    case Connect(server) =>
      if s.holding.None? && s.rejected.None? && !s.ended
      then s.(infos := s.infos + [Info(server, 0, 0)], holding := Some(|s.infos|)) else s
    case Register =>
      if s.holding.None? || s.holding.value >= |s.infos| then s
      else
        var c := s.holding.value;
        var server := s.infos[c].server;
        Add(s, server, c).(holding := None, rejected := if server in s.clients then Some(c) else None)
    case CloseRejected =>
      if s.rejected.Some? then s.(infos := Closed(s.infos, s.rejected.value), rejected := None) else s
    case RemoveByServer(id) => RemoveServer(s, id)
    case Remove(c) => RemoveOwn(s, c)
    case End => if s.holding.None? && s.rejected.None? && !s.ended then Shutdown(s).(ended := true) else s
  }

  /** A client in the hands of the sync loop. */
  predicate InHand(s: State, c: Client) { s.holding == Some(c) || s.rejected == Some(c) }

  ghost predicate KeyInv(s: State) {
    && (forall id | id in s.clients :: s.clients[id] < |s.infos| && s.infos[s.clients[id]].server == id)
    && (s.holding.Some? ==> s.holding.value < |s.infos| && s.rejected.None?)
    && (s.rejected.Some? ==> s.rejected.value < |s.infos|)
    && (s.ended ==> s.clients == map[] && s.holding.None? && s.rejected.None?)
  }

  /** What is true of one client. */
  ghost predicate ClientOk(s: State, c: Client)
    requires c < |s.infos|
  {
    && s.infos[c].removed <= s.infos[c].closes <= 1
    && (Registered(s, c) || InHand(s, c) <==> s.infos[c].closes == 0)
    && !(Registered(s, c) && InHand(s, c))
  }

  ghost predicate Inv(s: State) { KeyInv(s) && forall c | 0 <= c < |s.infos| :: ClientOk(s, c) }

  lemma RemoveOwnKeepsInv(s: State, c: Client)
    requires Inv(s)
    ensures Inv(RemoveOwn(s, c))
  {
    var t := RemoveOwn(s, c);
    if Registered(s, c) {
      assert ClientOk(s, c);
      forall d | 0 <= d < |t.infos| ensures ClientOk(t, d) { assert ClientOk(s, d); }
    }
  }

  lemma RemoveServerKeepsInv(s: State, id: ServerId)
    requires Inv(s)
    ensures Inv(RemoveServer(s, id))
  {
    var t := RemoveServer(s, id);
    if id in s.clients {
      assert ClientOk(s, s.clients[id]);
      forall d | 0 <= d < |t.infos| ensures ClientOk(t, d) { assert ClientOk(s, d); }
    }
  }

  lemma RegisterKeepsInv(s: State)
    requires Inv(s)
    ensures Inv(Step(s, Register))
  {
    var t := Step(s, Register);
    forall d | 0 <= d < |t.infos| ensures ClientOk(t, d) { assert ClientOk(s, d); }
  }

  lemma ConnectKeepsInv(s: State, server: ServerId)
    requires Inv(s)
    ensures Inv(Step(s, Connect(server)))
  {
    var t := Step(s, Connect(server));
    forall d | 0 <= d < |t.infos| ensures ClientOk(t, d) { if d < |s.infos| { assert ClientOk(s, d); } }
  }

  lemma CloseRejectedKeepsInv(s: State)
    requires Inv(s)
    ensures Inv(Step(s, CloseRejected))
  {
    var t := Step(s, CloseRejected);
    if s.rejected.Some? { assert ClientOk(s, s.rejected.value); }
    forall d | 0 <= d < |t.infos| ensures ClientOk(t, d) { assert ClientOk(s, d); }
  }

  lemma EndKeepsInv(s: State)
    requires Inv(s)
    ensures Inv(Step(s, End))
  {
    var t := Step(s, End);
    forall d | 0 <= d < |t.infos| ensures ClientOk(t, d) { assert ClientOk(s, d); }
  }

  lemma StepKeepsInv(s: State, a: Action)
    requires Inv(s)
    ensures Inv(Step(s, a))
  {
    match a
    case Connect(server) => ConnectKeepsInv(s, server);
    case Register => RegisterKeepsInv(s);
    case CloseRejected => CloseRejectedKeepsInv(s);
    case RemoveByServer(id) => RemoveServerKeepsInv(s, id);
    case Remove(c) => RemoveOwnKeepsInv(s, c);
    case End => EndKeepsInv(s);
  }

  /** In every interleaving each client is closed at most once, and a client is open if
      and only if it is registered, under its own server, or in the hands of the sync
      loop; removeClient returns true at most once for a client. */
  lemma ClosedAtMostOnce(actions: seq<Action>)
    ensures var s := Run(Step, INITIAL, actions);
            && (forall id | id in s.clients :: s.clients[id] < |s.infos| && s.infos[s.clients[id]].server == id)
            && (forall c | 0 <= c < |s.infos| ::
                  && s.infos[c].closes <= 1 && s.infos[c].removed <= 1
                  && (s.infos[c].closes == 0 <==> Registered(s, c) || InHand(s, c)))
  {
    forall t, a | Inv(t) ensures Inv(Step(t, a)) { StepKeepsInv(t, a); }
    Invariance(Step, Inv, INITIAL, actions);
    var s := Run(Step, INITIAL, actions);
    forall c | 0 <= c < |s.infos|
      ensures s.infos[c].closes <= 1 && s.infos[c].removed <= 1
              && (s.infos[c].closes == 0 <==> Registered(s, c) || InHand(s, c))
    {
      assert ClientOk(s, c);
    }
  }

  /** In every interleaving the exit of a client leaves every other client alone, also
      the one that replaced it: registered clients stay, and none is closed. */
  lemma OldClientLeavesReplacement(actions: seq<Action>, c: Client)
    ensures var s := Run(Step, INITIAL, actions);
            var t := Step(s, Remove(c));
            && (forall id | id in s.clients && s.clients[id] != c :: id in t.clients && t.clients[id] == s.clients[id])
            && (forall d | 0 <= d < |s.infos| && d != c :: t.infos[d] == s.infos[d])
            && !Registered(t, c)
  {
    ClosedAtMostOnce(actions);
  }

  /** After the sync loop has ended every client ever connected is closed exactly once. */
  lemma EndClosesAll(actions: seq<Action>)
    ensures var s := Run(Step, INITIAL, actions);
            s.ended ==> forall c | 0 <= c < |s.infos| :: s.infos[c].closes == 1
  {
    forall t, a | Inv(t) ensures Inv(Step(t, a)) { StepKeepsInv(t, a); }
    Invariance(Step, Inv, INITIAL, actions);
    var s := Run(Step, INITIAL, actions);
    if s.ended {
      forall c | 0 <= c < |s.infos| ensures s.infos[c].closes == 1 { assert ClientOk(s, c); }
    }
  }

  // ----- The object -----

  class Set {
    var clients: map<ServerId, Client>
    var infos: seq<Info>

    ghost function View(): State
      reads this
    {
      State(clients, infos, None, None, false)
    }

    ghost predicate Valid()
      reads this
    {
      KeyInv(View())
    }

    constructor ()
      ensures Valid() && View() == INITIAL
    {
      clients, infos := map[], [];
    }

    method Close(c: Client)
      requires c < |infos|
      modifies this`infos
      ensures infos == Closed(old(infos), c)
    {
      infos := infos[c := infos[c].(closes := infos[c].closes + 1)];
    }

    method AddClient(c: Client) returns (ok: bool)
      requires Valid() && c < |infos|
      modifies this`clients
      ensures Valid() && View() == Add(old(View()), infos[c].server, c)
      ensures ok == (infos[c].server !in old(clients))
    {
      if infos[c].server in clients {
        return false;
      }
      clients := clients[infos[c].server := c];
      return true;
    }

    method RemoveClient(server: ServerId)
      requires Valid()
      modifies this
      ensures Valid() && View() == RemoveServer(old(View()), server)
    {
      if server !in clients {
        return;
      }
      Close(clients[server]);
      clients := clients - {server};
    }

    /** removeClient, which tells whether it removed the client. */
    method RemoveOwnClient(c: Client) returns (removed: bool)
      requires Valid() && c < |infos|
      modifies this
      ensures Valid() && removed == Registered(old(View()), c)
      ensures View() == RemoveOwn(old(View()), c)
    {
      var server := infos[c].server;
      if server !in clients || clients[server] != c {
        return false;
      }
      Close(c);
      clients := clients - {server};
      infos := infos[c := infos[c].(removed := infos[c].removed + 1)];
      return true;
    }

    /** shutdown: all clients of the set are closed, in any order, each once. */
    method ShutdownAll()
      requires Valid()
      modifies this
      ensures Valid() && View() == Shutdown(old(View()))
    {
      ghost var was := View();
      while clients.Keys != {}
        invariant |infos| == |was.infos| && clients.Keys <= was.clients.Keys
        invariant forall id | id in clients :: clients[id] == was.clients[id]
        invariant forall c | 0 <= c < |infos| ::
                    infos[c] == if Registered(was, c) && was.infos[c].server !in clients
                                then was.infos[c].(closes := was.infos[c].closes + 1) else was.infos[c]
        decreases clients.Keys
      {
        var id := Any(clients.Keys);
        Close(clients[id]);
        clients := clients - {id};
      }
      assert clients == map[];
    }
  }
}
