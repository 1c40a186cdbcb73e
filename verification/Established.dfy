/** The established connections of the proxy server: for each agent a map from
    connection IDs to connections, dropped when it becomes empty. Specified by one
    lookup over pairs of agent and connection ID. */
module Established {
  import opened Options
  import opened Ranging

  type AgentId = string
  type ConnId = int
  type Backend = nat
  type StreamId = string

  /** A connection; without a frontend where that is nil. */
  datatype Conn = Conn(dial: int, backend: Option<Backend>, stream: Option<StreamId>)

  type Conns = map<ConnId, Conn>
  type Nested = map<AgentId, Conns>

  function In(conns: Conns, c: ConnId): Option<Conn> { if c in conns then Some(conns[c]) else None }

  function Lookup(n: Nested, a: AgentId, c: ConnId): Option<Conn> { if a in n then In(n[a], c) else None }

  ghost predicate NoEmpty(n: Nested) { forall a | a in n :: n[a] != map[] }

  /** All connections, as pairs. */
  function Pairs(n: Nested): set<(AgentId, ConnId)> { set a, c | a in n && c in n[a] :: (a, c) }

  /** An agent's connections are replaced; it goes when none is left. */
  function Replace(n: Nested, a: AgentId, conns: Conns): Nested { if |conns| == 0 then n - {a} else n[a := conns] }

  lemma ReplaceLookup(n: Nested, a: AgentId, conns: Conns)
    requires NoEmpty(n)
    ensures NoEmpty(Replace(n, a, conns))
    ensures forall x, y :: Lookup(Replace(n, a, conns), x, y) == if x == a then In(conns, y) else Lookup(n, x, y)
  {}

  // ----- Counting -----

  function PairsOf(a: AgentId, ids: set<ConnId>): set<(AgentId, ConnId)> { set c | c in ids :: (a, c) }

  lemma {:induction false} PairsOfSize(a: AgentId, ids: set<ConnId>)
    ensures |PairsOf(a, ids)| == |ids|
  {
    if |ids| == 0 {
      assert PairsOf(a, ids) == {};
    } else {
      var c := Pick(ids);
      PairsOfSize(a, ids - {c});
      assert PairsOf(a, ids) == PairsOf(a, ids - {c}) + {(a, c)};
    }
  }

  /** Taking out one agent takes out its connections. */
  lemma PairsWithout(n: Nested, a: AgentId)
    requires a in n
    ensures |Pairs(n)| == |Pairs(n - {a})| + |n[a]|
  {
    assert Pairs(n) == Pairs(n - {a}) + PairsOf(a, n[a].Keys);
    assert Pairs(n - {a}) !! PairsOf(a, n[a].Keys);
    PairsOfSize(a, n[a].Keys);
  }

  // ----- The object -----

  /** The connections that satisfy `drop`, deleted while ranging over the map. */
  method DeleteMatching(conns: Conns, drop: Conn -> bool) returns (rest: Conns, gone: set<ConnId>)
    ensures forall c :: c in gone <==> c in conns && drop(conns[c])
    ensures rest == conns - gone
  {
    rest, gone := conns, {};
    var todo := conns.Keys;
    while todo != {}
      invariant todo <= conns.Keys && rest == conns - gone
      invariant forall c :: c in gone <==> c in conns && c !in todo && drop(conns[c])
      decreases todo
    {
      var c := Any(todo);
      if drop(conns[c]) {
        rest := rest - {c};
        gone := gone + {c};
      }
      todo := todo - {c};
    }
  }

  class Server {
    var established: Nested

    /** No inner map is ever empty. */
    ghost predicate Valid()
      reads this
    {
      NoEmpty(established)
    }

    constructor ()
      ensures Valid() && established == map[]
    {
      established := map[];
    }

    /** addEstablished: a connection under the same key is overwritten. */
    method AddEstablished(a: AgentId, c: ConnId, conn: Conn)
      requires Valid()
      modifies this
      ensures Valid()
      ensures forall x, y :: Lookup(established, x, y)
                             == if x == a && y == c then Some(conn) else Lookup(old(established), x, y)
    {
      if a !in established {
        established := established[a := map[]];
      }
      established := established[a := established[a][c := conn]];
      assert c in established[a];
    }

    /** removeEstablished: whoever gets the connection is the only one. */
    method RemoveEstablished(a: AgentId, c: ConnId) returns (r: Option<Conn>)
      requires Valid()
      modifies this
      ensures Valid() && r == Lookup(old(established), a, c)
      ensures forall x, y :: Lookup(established, x, y) ==
                if x == a && y == c then None else Lookup(old(established), x, y)
    {
      if a !in established || c !in established[a] {
        return None;
      }
      r := Some(established[a][c]);
      ReplaceLookup(established, a, established[a] - {c});
      established := Replace(established, a, established[a] - {c});
    }

    method GetFrontend(a: AgentId, c: ConnId) returns (r: Option<Conn>)
      ensures r == Lookup(established, a, c)
    {
      if a !in established || c !in established[a] {
        return None;
      }
      r := Some(established[a][c]);
    }

    /** removeEstablishedForBackendConn: exactly the connections of this agent over this
        backend go; those over other backends of the same agent stay. It fails if the
        agent has none at all. */
    method RemoveEstablishedForBackendConn(a: AgentId, b: Option<Backend>) returns (ok: bool, gone: set<ConnId>)
      requires Valid()
      modifies this
      ensures Valid() && ok == (b.None? || a in old(established))
      ensures forall y :: y in gone <==>
                var conn := Lookup(old(established), a, y); b.Some? && conn.Some? && conn.value.backend == b
      ensures forall x, y :: Lookup(established, x, y) ==
                if x == a && y in gone then None else Lookup(old(established), x, y)
    {
      if b.None? {
        return true, {};
      }
      if a !in established {
        return false, {};
      }
      var rest;
      rest, gone := DeleteMatching(established[a], (conn: Conn) => conn.backend == b);
      ReplaceLookup(established, a, rest);
      established := Replace(established, a, rest);
      ok := true;
    }

    /** getCount. */
    method GetCount() returns (count: nat)
      ensures count == |Pairs(established)|
    {
      count := 0;
      var todo := established;
      while todo.Keys != {}
        invariant count + |Pairs(todo)| == |Pairs(established)|
        decreases todo.Keys
      {
        var a := Any(todo.Keys);
        PairsWithout(todo, a);
        count := count + |todo[a]|;
        todo := todo - {a};
      }
      assert Pairs(todo) == {};
    }

    /** One agent's turn in removeEstablishedForStream. */
    method RemoveStreamFrom(a: AgentId, stream: StreamId) returns (ids: set<ConnId>)
      requires Valid() && a in established
      modifies this
      ensures Valid()
      ensures forall y :: y in ids <==>
                var conn := Lookup(old(established), a, y); conn.Some? && conn.value.stream == Some(stream)
      ensures forall x, y :: Lookup(established, x, y) ==
                if x == a && y in ids then None else Lookup(old(established), x, y)
      ensures forall x | x != a && x in old(established) :: x in established && established[x] == old(established)[x]
    {
      var rest;
      rest, ids := DeleteMatching(established[a], (conn: Conn) => conn.stream == Some(stream));
      ReplaceLookup(established, a, rest);
      established := Replace(established, a, rest);
    }

    /** removeEstablishedForStream: exactly the connections of the stream go, whatever
        agent they are on. */
    method RemoveEstablishedForStream(stream: StreamId) returns (gone: set<(AgentId, ConnId)>)
      requires Valid()
      modifies this
      ensures Valid()
      ensures forall x, y :: (x, y) in gone <==>
                var conn := Lookup(old(established), x, y);
                stream != "" && conn.Some? && conn.value.stream == Some(stream)
      ensures forall x, y :: Lookup(established, x, y) ==
                if (x, y) in gone then None else Lookup(old(established), x, y)
    {
      gone := {};
      if stream == "" {
        return;
      }
      var todo := established.Keys;
      while todo != {}
        invariant Valid()
        invariant forall x | x in todo ::
                    x in established && x in old(established) && established[x] == old(established)[x]
        invariant forall x, y :: (x, y) in gone <==>
                    var conn := Lookup(old(established), x, y);
                    x !in todo && conn.Some? && conn.value.stream == Some(stream)
        invariant forall x, y :: Lookup(established, x, y) ==
                    if (x, y) in gone then None else Lookup(old(established), x, y)
        decreases todo
      {
        var a := Any(todo);
        var ids := RemoveStreamFrom(a, stream);
        gone := gone + PairsOf(a, ids);
        todo := todo - {a};
      }
    }
  }
}
