/** net.SplitHostPort and net.JoinHostPort, which the core uses to take "host:port"
    texts apart and to build them. */
module HostPort {
  import opened Prelude

  /** Position of the first `c` in `s`, or -1. */
  function IndexOf(s: string, c: char): (r: int)
    ensures -1 <= r < |s|
    ensures r >= 0 ==> s[r] == c && c !in s[..r]
    ensures r < 0 <==> c !in s
  {
    if s == [] then -1
    else if s[0] == c then 0
    else
      var k := IndexOf(s[1..], c);
      assert k >= 0 ==> s[..k + 1] == [s[0]] + s[1..][..k];
      assert s == [s[0]] + s[1..];
      if k < 0 then -1 else k + 1
  }

  /** Position of the last `c` in `s`, or -1. */
  function LastIndex(s: string, c: char): (r: int)
    ensures -1 <= r < |s|
    ensures r >= 0 ==> s[r] == c && c !in s[r + 1..]
    ensures r < 0 <==> c !in s
  {
    if s == [] then -1
    else if s[|s| - 1] == c then |s| - 1
    else
      var k := LastIndex(s[..|s| - 1], c);
      assert s == s[..|s| - 1] + [s[|s| - 1]];
      assert k >= 0 ==> s[k + 1..] == s[..|s| - 1][k + 1..] + [s[|s| - 1]];
      k
  }

  const MissingPort := "missing port in address"
  const TooManyColons := "too many colons in address"

  /** net.SplitHostPort: the port follows the last ':'; a host holding ':' must be
      written in brackets, and no other bracket may appear. */
  function SplitHostPort(hp: string): (r: Result<(string, string)>)
    ensures r.Success? ==> ':' !in r.value.1 && '[' !in r.value.0 && ']' !in r.value.0
    ensures r.Success? ==> '[' !in r.value.1 && ']' !in r.value.1
  {
    var i := LastIndex(hp, ':');
    if i < 0 then Failure(AddrError(hp, MissingPort))
    else
      var port := hp[i + 1..];
      if hp[0] == '[' then
        var end := IndexOf(hp, ']');
        if end < 0 then Failure(AddrError(hp, "missing ']' in address"))
        else if end + 1 == |hp| then Failure(AddrError(hp, MissingPort))
        else if end + 1 != i then
          (if hp[end + 1] == ':' then Failure(AddrError(hp, TooManyColons)) else Failure(AddrError(hp, MissingPort)))
        else CheckBrackets(hp, 1, end + 1, hp[1..end], port)
      else
        var host := hp[..i];
        if ':' in host then Failure(AddrError(hp, TooManyColons))
        else CheckBrackets(hp, 0, 0, host, port)
  }

  /** The last two checks of SplitHostPort: no '[' from `j` on, no ']' from `k` on. */
  function CheckBrackets(hp: string, j: nat, k: nat, host: string, port: string): (r: Result<(string, string)>)
    requires j <= |hp| && k <= |hp|
  {
    if '[' in hp[j..] then Failure(AddrError(hp, "unexpected '[' in address"))
    else if ']' in hp[k..] then Failure(AddrError(hp, "unexpected ']' in address"))
    else Success((host, port))
  }

  /** net.JoinHostPort: brackets around a host that holds ':'. */
  function JoinHostPort(host: string, port: string): string
  {
    if ':' in host then "[" + host + "]:" + port else host + ":" + port
  }

  /** The first `c` is where it is. */
  lemma {:induction false} IndexOfAt(s: string, c: char, i: nat)
    requires i < |s| && s[i] == c && c !in s[..i]
    ensures IndexOf(s, c) == i
  {
    if i > 0 {
      assert s[0] == s[..i][0];
      assert s[1..][..i - 1] == s[1..i];
      assert s[..i] == [s[0]] + s[1..i];
      IndexOfAt(s[1..], c, i - 1);
    }
  }

  /** The last `c` is where it is. */
  lemma {:induction false} LastIndexAt(s: string, c: char, i: nat)
    requires i < |s| && s[i] == c && c !in s[i + 1..]
    ensures LastIndex(s, c) == i
  {
    if i < |s| - 1 {
      assert s[|s| - 1] == s[i + 1..][|s| - 2 - i];
      var t := s[..|s| - 1];
      assert t[i + 1..] == s[i + 1..|s| - 1];
      assert s[i + 1..] == t[i + 1..] + [s[|s| - 1]];
      LastIndexAt(t, c, i);
    }
  }

  lemma NoCharInJoin(a: string, mid: string, b: string, c: char)
    requires c !in a && c !in mid && c !in b
    ensures c !in a + mid + b
  {
  }

  lemma SplitJoinPlain(host: string, port: string)
    requires ':' !in host && '[' !in host && ']' !in host
    requires ':' !in port && '[' !in port && ']' !in port
    ensures SplitHostPort(host + ":" + port) == Success((host, port))
  {
    var hp := host + ":" + port;
    var i := |host|;
    assert hp[i + 1..] == port;
    LastIndexAt(hp, ':', i);
    assert hp[..i] == host;
    if host != [] {
      assert hp[0] == host[0];
    }
    NoCharInJoin(host, ":", port, '[');
    NoCharInJoin(host, ":", port, ']');
    assert hp[0..] == hp;
  }

  lemma SplitJoinBracketed(hp: string, host: string, port: string)
    requires hp == "[" + host + "]:" + port
    requires '[' !in host && ']' !in host
    requires ':' !in port && '[' !in port && ']' !in port
    ensures SplitHostPort(hp) == Success((host, port))
  {
    BracketedLastColon(hp, host, port);
    BracketedCloser(hp, host, port);
    BracketedChecks(hp, host, port);
    SplitBracketedShape(hp, |host|);
  }

  lemma BracketedLastColon(hp: string, host: string, port: string)
    requires hp == "[" + host + "]:" + port
    requires ':' !in port
    ensures LastIndex(hp, ':') == |host| + 2
  {
    var i := |host| + 2;
    assert hp[i + 1..] == port;
    assert hp[i] == ':';
    LastIndexAt(hp, ':', i);
  }

  lemma BracketedCloser(hp: string, host: string, port: string)
    requires hp == "[" + host + "]:" + port
    requires ']' !in host
    ensures IndexOf(hp, ']') == |host| + 1
  {
    assert hp[..|host| + 1] == "[" + host;
    IndexOfAt(hp, ']', |host| + 1);
  }

  lemma BracketedChecks(hp: string, host: string, port: string)
    requires hp == "[" + host + "]:" + port
    requires '[' !in host && '[' !in port && ']' !in port
    ensures CheckBrackets(hp, 1, |host| + 2, host, port) == Success((host, port))
    ensures |hp| > |host| + 2 && hp[0] == '[' && hp[1..|host| + 1] == host && hp[|host| + 3..] == port
  {
    assert hp[1..] == host + "]:" + port;
    NoCharInJoin(host, "]:", port, '[');
    assert hp[|host| + 2..] == ":" + port;
  }

  /** SplitHostPort on a bracketed text whose ']' is followed by the last ':'. */
  lemma SplitBracketedShape(hp: string, h: nat)
    requires |hp| > h + 2 && hp[0] == '['
    requires LastIndex(hp, ':') == h + 2
    requires IndexOf(hp, ']') == h + 1
    ensures SplitHostPort(hp) == CheckBrackets(hp, 1, h + 2, hp[1..h + 1], hp[h + 3..])
  {
  }

  /** Splitting what JoinHostPort built gives the host and the port back, for any
      host and port without brackets and a port without ':'. */
  lemma SplitJoin(host: string, port: string)
    requires '[' !in host && ']' !in host
    requires ':' !in port && '[' !in port && ']' !in port
    ensures SplitHostPort(JoinHostPort(host, port)) == Success((host, port))
  {
    if ':' in host {
      SplitJoinBracketed("[" + host + "]:" + port, host, port);
    } else {
      SplitJoinPlain(host, port);
    }
  }
}
