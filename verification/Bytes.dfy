/** Byte strings and sequences of chunks. */
module Bytes {
  type Bytes = seq<bv8>

  /** The bytes of all chunks, in order. */
  function Flat(chunks: seq<Bytes>): Bytes {
    if chunks == [] then [] else chunks[0] + Flat(chunks[1..])
  }

  lemma {:induction false} FlatConcat(a: seq<Bytes>, b: seq<Bytes>)
    ensures Flat(a + b) == Flat(a) + Flat(b)
  {
    if a == [] {
      assert a + b == b;
    } else {
      assert (a + b)[1..] == a[1..] + b;
      FlatConcat(a[1..], b);
      assert Flat(a + b) == a[0] + (Flat(a[1..]) + Flat(b));
    }
  }

  lemma FlatAppend(a: seq<Bytes>, c: Bytes)
    ensures Flat(a + [c]) == Flat(a) + c
  {
    FlatConcat(a, [c]);
    assert Flat([c]) == c + Flat([]);
    assert Flat([c]) == c;
  }

  /** Taking the first chunk off the front. */
  lemma FlatHead(a: seq<Bytes>)
    requires a != []
    ensures Flat(a) == a[0] + Flat(a[1..])
  {}

  /** What a sequence of packets carries, in order, if `data` is what one carries. */
  function Payload<T>(data: T -> Bytes, packets: seq<T>): Bytes {
    if packets == [] then [] else Payload(data, packets[..|packets| - 1]) + data(packets[|packets| - 1])
  }

  lemma PayloadAppend<T>(data: T -> Bytes, packets: seq<T>, p: T)
    ensures Payload(data, packets + [p]) == Payload(data, packets) + data(p)
  {
    assert (packets + [p])[..|packets|] == packets;
  }

  /** A prefix of the packets carries a prefix of the bytes, and all of them if the
      other packets carry none. */
  lemma {:induction false} PayloadOfPrefix<T>(data: T -> Bytes, packets: seq<T>, k: nat)
    requires k <= |packets|
    ensures Payload(data, packets[..k]) <= Payload(data, packets)
    ensures (forall i | k <= i < |packets| :: data(packets[i]) == []) ==>
              Payload(data, packets[..k]) == Payload(data, packets)
  {
    if k < |packets| {
      var front := packets[..|packets| - 1];
      assert front[..k] == packets[..k];
      PayloadOfPrefix(data, front, k);
    } else {
      assert packets[..k] == packets;
    }
  }

  lemma PrefixOfLonger(s: Bytes, head: Bytes, short: Bytes, long: Bytes)
    requires s <= head + short && short <= long
    ensures s <= head + long
  {
    assert head + long == head + short + long[|short|..];
  }

  /** The same bytes, taken apart differently. */
  lemma Regroup(a: Bytes, b: Bytes, c: Bytes)
    ensures a + (b + c) == a + b + c
  {}
}
