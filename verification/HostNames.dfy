/** The key for destination-host routing: a host taken out of a "host:port" address.
    Section 3.2.2 of RFC 3986 puts brackets around an IPv6 literal. */
module HostNames {

  predicate Bracket(c: char) { c == '[' || c == ']' }

  /** strings.Split(s, ":"). */
  function Split(s: string): (parts: seq<string>)
    ensures |parts| > 0
  {
    if s == "" then [""]
    else
      var rest := Split(s[1..]);
      if s[0] == ':' then [""] + rest else [[s[0]] + rest[0]] + rest[1..]
  }

  /** strings.LastIndexByte(s, ':'). */
  function LastColon(s: string): int {
    if s == "" then -1 else if s[|s| - 1] == ':' then |s| - 1 else LastColon(s[..|s| - 1])
  }

  function TrimLeft(s: string): string { if s != "" && Bracket(s[0]) then TrimLeft(s[1..]) else s }

  function TrimRight(s: string): string { if s != "" && Bracket(s[|s| - 1]) then TrimRight(s[..|s| - 1]) else s }

  /** strings.Trim(s, "[]"). */
  function Trim(s: string): string { TrimRight(TrimLeft(s)) }

  predicate ContainsIPv6(host: string) { |Split(host)| > 2 }

  lemma {:induction false} LastColonBounds(s: string)
    ensures -1 <= LastColon(s) < |s|
    ensures LastColon(s) == -1 <==> ':' !in s
    ensures ':' in s ==> s[LastColon(s)] == ':' && ':' !in s[LastColon(s) + 1..]
  {
    if s != "" {
      var front, last := s[..|s| - 1], s[|s| - 1];
      assert s == front + [last];
      if last != ':' {
        LastColonBounds(front);
        if ':' in front {
          assert s[LastColon(s) + 1..] == front[LastColon(s) + 1..] + [last];
        }
      }
    }
  }

  lemma {:induction false} SplitManyHasColon(s: string)
    ensures |Split(s)| > 1 <==> ':' in s
  {
    if s != "" {
      SplitManyHasColon(s[1..]);
      assert s == [s[0]] + s[1..];
    }
  }

  function RemovePort(host: string): string {
    if !ContainsIPv6(host) then Split(host)[0]
    else
      SplitManyHasColon(host);
      LastColonBounds(host);
      Trim(if '[' in host then host[..LastColon(host)] else host)
  }

  /** net.JoinHostPort. */
  function JoinHostPort(host: string, port: string): string {
    if ':' in host then "[" + host + "]:" + port else host + ":" + port
  }

  /** canonicalHTTPAddr, of the host name and the port of a URL. */
  function CanonicalAddr(host: string, port: string): string { JoinHostPort(host, if port == "" then "80" else port) }

  /** Brackets at either end. */
  predicate Fringed(s: string) { s != "" && (Bracket(s[0]) || Bracket(s[|s| - 1])) }

  // ----- Splitting -----

  lemma {:induction false} SplitConcat(s: string, t: string)
    ensures |Split(s + ":" + t)| == |Split(s)| + |Split(t)|
    ensures ':' !in s ==> Split(s + ":" + t)[0] == s
  {
    if s == "" {
      assert s + ":" + t == ":" + t;
      assert (":" + t)[1..] == t;
    } else {
      assert (s + ":" + t)[1..] == s[1..] + ":" + t;
      SplitConcat(s[1..], t);
      assert s == [s[0]] + s[1..];
    }
  }

  /** Splitting loses only what is after the first colon. */
  lemma {:induction false} SplitHead(s: string)
    ensures Split(s)[0] == s <==> ':' !in s
  {
    if s != "" {
      SplitHead(s[1..]);
      assert s == [s[0]] + s[1..];
    }
  }

  lemma {:induction false} LastColonOfConcat(s: string, t: string)
    requires ':' !in t
    ensures LastColon(s + ":" + t) == |s|
  {
    var whole := s + ":" + t;
    if t == "" {
      assert whole == s + ":";
    } else {
      assert whole[..|whole| - 1] == s + ":" + t[..|t| - 1];
      assert whole[|whole| - 1] == t[|t| - 1];
      LastColonOfConcat(s, t[..|t| - 1]);
    }
  }

  // ----- Trimming -----

  lemma {:induction false} TrimLeftShortens(s: string)
    ensures |TrimLeft(s)| <= |s|
    ensures s != "" && Bracket(s[0]) ==> |TrimLeft(s)| < |s|
    ensures |TrimLeft(s)| == |s| ==> TrimLeft(s) == s
  {
    if s != "" && Bracket(s[0]) { TrimLeftShortens(s[1..]); }
  }

  lemma {:induction false} TrimRightShortens(s: string)
    ensures |TrimRight(s)| <= |s|
    ensures s != "" && Bracket(s[|s| - 1]) ==> |TrimRight(s)| < |s|
    ensures |TrimRight(s)| == |s| ==> TrimRight(s) == s
  {
    if s != "" && Bracket(s[|s| - 1]) { TrimRightShortens(s[..|s| - 1]); }
  }

  /** Trimming changes exactly the strings with a bracket at an end. */
  lemma TrimChanges(s: string)
    ensures Trim(s) == s <==> !Fringed(s)
    ensures |Trim(s)| <= |s| && (Fringed(s) ==> |Trim(s)| < |s|)
  {
    TrimLeftShortens(s);
    TrimRightShortens(TrimLeft(s));
  }

  lemma {:induction false} TrimRightOne(s: string, c: char)
    requires Bracket(c)
    ensures TrimRight(s + [c]) == TrimRight(s)
  {
    assert (s + [c])[..|s|] == s;
  }

  /** A bracket added at the right end is trimmed, whatever is trimmed on the left. */
  lemma {:induction false} TrimAddsRight(s: string, c: char)
    requires Bracket(c)
    ensures TrimRight(TrimLeft(s + [c])) == TrimRight(TrimLeft(s))
  {
    if s != "" && Bracket(s[0]) {
      assert (s + [c])[1..] == s[1..] + [c];
      TrimAddsRight(s[1..], c);
    } else if s == "" {
      assert (s + [c])[1..] == "";
    } else {
      TrimRightOne(s, c);
    }
  }

  lemma TrimBrackets(s: string)
    ensures Trim("[" + s + "]") == Trim(s)
  {
    assert "[" + s + "]" == "[" + (s + "]");
    assert ("[" + (s + "]"))[1..] == s + "]";
    TrimAddsRight(s, ']');
  }

  // ----- The theorems -----

  lemma SplitJoined(host: string, port: string)
    requires ':' in host && ':' !in port
    ensures |Split("[" + host + "]:" + port)| > 2
    ensures LastColon("[" + host + "]:" + port) == |host| + 2
  {
    var h := "[" + host + "]";
    assert "[" + host + "]:" + port == h + ":" + port;
    assert ':' in h by { var i :| 0 <= i < |host| && host[i] == ':'; assert h[i + 1] == ':'; }
    SplitConcat(h, port);
    SplitManyHasColon(h);
    LastColonOfConcat(h, port);
  }

  /** Joining a host with a port and taking the port off again gives the host back if
      and only if the host has no colon, or has no bracket at either end. */
  lemma JoinThenRemove(host: string, port: string)
    requires ':' !in port
    ensures RemovePort(JoinHostPort(host, port)) == host <==> ':' !in host || !Fringed(host)
  {
    if ':' in host {
      var joined := "[" + host + "]:" + port;
      SplitJoined(host, port);
      assert joined[0] == '[';
      assert joined[..|host| + 2] == "[" + host + "]";
      TrimBrackets(host);
      TrimChanges(host);
    } else {
      SplitConcat(host, port);
      SplitManyHasColon(host);
      SplitManyHasColon(port);
    }
  }

  /** The key looked up for the target of a forward proxy request is its host name. */
  lemma CanonicalKey(host: string, port: string)
    requires ':' !in port && '[' !in host && ']' !in host
    ensures RemovePort(CanonicalAddr(host, port)) == host
  {
    JoinThenRemove(host, if port == "" then "80" else port);
  }

  /** An address without a port is its own key if and only if it has no colon, or has
      several and no opening bracket, and no closing bracket at an end. */
  lemma KeyOfBareHost(host: string)
    ensures RemovePort(host) == host <==> ':' !in host || (ContainsIPv6(host) && '[' !in host && !Fringed(host))
  {
    SplitManyHasColon(host);
    SplitHead(host);
    LastColonBounds(host);
    if ContainsIPv6(host) {
      if '[' in host { TrimChanges(host[..LastColon(host)]); } else { TrimChanges(host); }
    }
  }

  /** A bracketed IPv6 literal without a port, though legal, never gives its address:
      its last group is taken for the port. */
  lemma BracketedWithoutPortIsCut(host: string)
    requires ContainsIPv6("[" + host + "]")
    ensures RemovePort("[" + host + "]") != host
  {
    var h := "[" + host + "]";
    SplitManyHasColon(h);
    LastColonBounds(h);
    var cut := h[..LastColon(h)];
    assert h[0] == '[' && h[|h| - 1] == ']';
    assert cut[0] == '[';
    TrimChanges(cut);
  }

  lemma LoopbackIsCut()
    ensures RemovePort("[::1]") == ":"
  {
    assert "[::1]" == "[:" + ":" + "1]";
    SplitConcat("[:", "1]");
    SplitManyHasColon("[:");
    LastColonOfConcat("[:", "1]");
    assert "[:"[1] == ':' && "[::1]"[0] == '[' && "[::1]"[..2] == "[:" && "[:"[1..] == ":";
  }
}
