/** IP addresses as Go's net package treats them: a byte slice of length 4 or 16
    (nil is the empty slice), net.ParseIP, IP.To4/To16 and IP.String. ParseIP
    follows current Go, where it is built on net/netip's parser: a
    dotted-quad field may not carry a leading zero, and an IPv6 group has one to
    four hex digits. */
module NetIP {
  import opened Prelude
  import opened Strconv

  type IP = seq<byte>

  /** net.UDPAddr: an IP and a port. */
  datatype UDPAddr = UDPAddr(ip: IP, port: int)

  /** The first twelve bytes of an IPv4 address held in 16-byte form. */
  const V4InV6Prefix: seq<byte> := [0, 0, 0, 0, 0, 0, 0, 0, 0, 0, 0xff, 0xff]

  /** net.IPv4(a, b, c, d): the 16-byte form of an IPv4 address. */
  function IPv4(a: seq<byte>): (r: IP)
    requires |a| == 4
    ensures |r| == 16 && r[12..] == a
  {
    V4InV6Prefix + a
  }

  /** IP.To4: the 4-byte form, or nil if the address is not IPv4 (plain or mapped). */
  function To4(ip: IP): (r: Option<IP>)
    ensures r.Some? <==> |ip| == 4 || (|ip| == 16 && ip[..12] == V4InV6Prefix)
    ensures r.Some? ==> |r.value| == 4 && r.value == ip[|ip| - 4..]
  {
    if |ip| == 4 then Some(ip)
    else if |ip| == 16 && ip[..12] == V4InV6Prefix then Some(ip[12..])
    else None
  }

  /** IP.To16: the 16-byte form, or nil for a slice of any other length. */
  function To16(ip: IP): (r: Option<IP>)
    ensures r.Some? <==> |ip| == 4 || |ip| == 16
    ensures r.Some? ==> |r.value| == 16 && To4(r.value) == To4(ip)
  {
    if |ip| == 4 then Some(IPv4(ip)) else if |ip| == 16 then Some(ip) else None
  }

  // ----- parsing -----

  /** One dotted-quad field at the front of `s`: its value and how many characters it spans. */
  function ParseOctet(s: string): (r: Option<(byte, nat)>)
    ensures r.Some? ==> 1 <= r.value.1 <= |s|
  {
    var c := DigitRun(s);
    if c == 0 then None
    else
      var v := DecValue(s[..c]);
      if v > 0xFF || (c > 1 && s[0] == '0') then None else Some((v as byte, c))
  }

  /** Exactly `count` dot-separated fields making up all of `s`; the first has no dot before it. */
  function ParseIPv4Fields(s: string, count: nat, first: bool): (r: Option<seq<byte>>)
    ensures r.Some? ==> |r.value| == count
    decreases count
  {
    if count == 0 then (if s == [] then Some([]) else None)
    else if s == [] || (!first && s[0] != '.') then None
    else
      var t := if first then s else s[1..];
      match ParseOctet(t)
      case None => None
      case Some((v, c)) =>
        match ParseIPv4Fields(t[c..], count - 1, false)
        case None => None
        case Some(rest) => Some([v] + rest)
  }

  /** net.parseIPv4: four decimal fields, returned in 16-byte form. */
  function ParseIPv4(s: string): (r: Option<IP>)
    ensures r.Some? ==> |r.value| == 16 && r.value[..12] == V4InV6Prefix
  {
    match ParseIPv4Fields(s, 4, true)
    case None => None
    case Some(b) => Some(IPv4(b))
  }

  predicate IsHex(c: char) {
    '0' <= c <= '9' || 'a' <= c <= 'f' || 'A' <= c <= 'F'
  }

  function HexDigitValue(c: char): nat
    requires IsHex(c)
  {
    if '0' <= c <= '9' then c as int - '0' as int
    else if 'a' <= c <= 'f' then c as int - 'a' as int + 10
    else c as int - 'A' as int + 10
  }

  /** Length of the run of hexadecimal digits at the front of `s`. */
  function HexRun(s: string): (c: nat)
    ensures c <= |s| && forall i :: 0 <= i < c ==> IsHex(s[i])
  {
    if s == [] || !IsHex(s[0]) then 0 else 1 + HexRun(s[1..])
  }

  function HexValue(s: string): nat
    requires forall i :: 0 <= i < |s| ==> IsHex(s[i])
  {
    if s == [] then 0 else HexValue(s[..|s| - 1]) * 16 + HexDigitValue(s[|s| - 1])
  }

  /** The 16 bytes of an IPv6 text once all groups are read: the "::" (at byte
      offset `ell`, or -1 if absent) stands for the missing zero bytes. */
  function V6Finish(acc: seq<byte>, ell: int): (r: Option<IP>)
    requires |acc| <= 16 && -1 <= ell <= |acc|
    ensures r.Some? ==> |r.value| == 16
  {
    if |acc| < 16 then
      (if ell < 0 then None else Some(acc[..ell] + Zeros(16 - |acc|) + acc[ell..]))
    else if ell >= 0 then None
    else Some(acc)
  }

  /** The group loop of netip's parseIPv6: `acc` holds the bytes read so far, `ell` the
      offset of the "::" seen so far (-1 if none), `s` the unread text. */
  function V6Loop(s: string, acc: seq<byte>, ell: int): (r: Option<IP>)
    requires |acc| < 16 && |acc| % 2 == 0 && -1 <= ell <= |acc|
    ensures r.Some? ==> |r.value| == 16
    decreases |s|
  {
    var c := HexRun(s);
    if c == 0 || c > 4 then None
    else
      var n := HexValue(s[..c]);
      if n > 0xFFFF then None
      else if c < |s| && s[c] == '.' then
        // a trailing dotted quad
        if ell < 0 && |acc| != 12 then None
        else if |acc| + 4 > 16 then None
        else
          match ParseIPv4(s)
          case None => None
          case Some(v4) => V6Finish(acc + v4[12..], ell)
      else
        var acc' := acc + [(n / 256) as byte, (n % 256) as byte];
        var rest := s[c..];
        if rest == [] then V6Finish(acc', ell)
        else if rest[0] != ':' || |rest| == 1 then None
        else
          var r2 := rest[1..];
          if r2[0] == ':' then
            if ell >= 0 then None
            else if |r2| == 1 then V6Finish(acc', |acc'|)
            else if |acc'| == 16 then None
            else V6Loop(r2[1..], acc', |acc'|)
          else if |acc'| == 16 then None
          else V6Loop(r2, acc', ell)
  }

  /** net.parseIPv6 (without zone). */
  function ParseIPv6(s: string): (r: Option<IP>)
    ensures r.Some? ==> |r.value| == 16
  {
    if |s| >= 2 && s[0] == ':' && s[1] == ':' then
      if |s| == 2 then Some(Zeros(16)) else V6Loop(s[2..], [], 0)
    else V6Loop(s, [], -1)
  }

  datatype Separator = Dot | Colon | Neither

  /** The first '.' or ':' in `s`, which decides how net.ParseIP reads it. */
  function FirstSeparator(s: string): Separator
  {
    if s == [] then Neither
    else if s[0] == '.' then Dot
    else if s[0] == ':' then Colon
    else FirstSeparator(s[1..])
  }

  /** net.ParseIP: nil unless `s` is an IPv4 or IPv6 literal; always 16 bytes otherwise. */
  function ParseIP(s: string): (r: Option<IP>)
    ensures r.Some? ==> |r.value| == 16
    ensures r.Some? ==> ('.' in s || ':' in s)
  {
    match FirstSeparator(s)
    case Dot => FirstSeparatorIn(s); ParseIPv4(s)
    case Colon => FirstSeparatorIn(s); ParseIPv6(s)
    case Neither => None
  }

  lemma {:induction false} FirstSeparatorIn(s: string)
    ensures FirstSeparator(s) == Dot ==> '.' in s
    ensures FirstSeparator(s) == Colon ==> ':' in s
  {
    if s != [] && s[0] != '.' && s[0] != ':' {
      FirstSeparatorIn(s[1..]);
    }
  }

  // ----- formatting -----

  /** Dotted-quad fields of `b`, each preceded by '.' except the very first. */
  function OctetsText(b: seq<byte>, first: bool): string
  {
    if b == [] then "" else (if first then "" else ".") + Dec(b[0] as nat) + OctetsText(b[1..], false)
  }

  /** The dotted-quad text of a 4-byte address. */
  function DottedQuad(b: seq<byte>): string
    requires |b| == 4
  {
    OctetsText(b, true)
  }

  function HexChar(d: nat): char
    requires d < 16
  {
    if d < 10 then ('0' as int + d) as char else ('a' as int + d - 10) as char
  }

  /** Lower-case hexadecimal text of `n` without leading zeros. */
  function HexLower(n: nat): string
    decreases n
  {
    if n < 16 then [HexChar(n)] else HexLower(n / 16) + [HexChar(n % 16)]
  }

  /** Two lower-case hexadecimal digits per byte. */
  function HexString(b: seq<byte>): string
  {
    if b == [] then "" else [HexChar(b[0] as nat / 16), HexChar(b[0] as nat % 16)] + HexString(b[1..])
  }

  function Group(ip: IP, k: nat): nat
    requires |ip| == 16 && k < 8
  {
    ip[2 * k] as nat * 256 + ip[2 * k + 1] as nat
  }

  /** Number of zero groups starting at group `k`. */
  function ZeroRun(ip: IP, k: nat): (r: nat)
    requires |ip| == 16 && k <= 8
    ensures k + r <= 8
    decreases 8 - k
  {
    if k == 8 || Group(ip, k) != 0 then 0 else 1 + ZeroRun(ip, k + 1)
  }

  /** The first longest run of zero groups at or after `k`, given the best one before it. */
  function LongestRun(ip: IP, k: nat, start: nat, len: nat): (r: (nat, nat))
    requires |ip| == 16 && k <= 8 && start + len <= 8
    ensures r.0 + r.1 <= 8 && r.1 >= len
    decreases 8 - k
  {
    if k == 8 then (start, len)
    else
      var l := ZeroRun(ip, k);
      if l > len then LongestRun(ip, k + 1, k, l) else LongestRun(ip, k + 1, start, len)
  }

  /** Groups `from` up to `to`, in hexadecimal, separated by ':'. */
  function Groups(ip: IP, from: nat, to: nat): string
    requires |ip| == 16 && from <= to <= 8
    decreases (to as int) - (from as int)
  {
    if from == to then ""
    else HexLower(Group(ip, from)) + (if from + 1 < to then ":" + Groups(ip, from + 1, to) else "")
  }

  /** RFC 5952 text of a 16-byte address: the first longest run of two or more zero groups becomes "::". */
  function V6Text(ip: IP): string
    requires |ip| == 16
  {
    var (s, l) := LongestRun(ip, 0, 0, 0);
    if l <= 1 then Groups(ip, 0, 8) else Groups(ip, 0, s) + "::" + Groups(ip, s + l, 8)
  }

  /** IP.String. */
  function IPString(ip: IP): string
  {
    if |ip| == 0 then "<nil>"
    else if To4(ip).Some? then DottedQuad(To4(ip).value)
    else if |ip| != 16 then "?" + HexString(ip)
    else V6Text(ip)
  }

  // ----- properties -----

  /** The decimal text of a byte, followed by a dot or nothing, reads back as that byte. */
  lemma ParseOctetOfDec(v: byte, rest: string)
    requires rest == [] || rest[0] == '.'
    ensures ParseOctet(Dec(v as nat) + rest) == Some((v, |Dec(v as nat)|))
  {
    var d := Dec(v as nat);
    var s := d + rest;
    DigitRunOfDigits(d, rest);
    assert s[..|d|] == d;
    DecValueOfDec(v as nat);
  }

  /** One field step of the dotted-quad reader. */
  lemma FieldStep(v: byte, tail: string, count: nat, first: bool)
    requires count >= 1
    requires tail == [] || tail[0] == '.'
    ensures ParseIPv4Fields((if first then "" else ".") + Dec(v as nat) + tail, count, first)
         == match ParseIPv4Fields(tail, count - 1, false)
            case None => None
            case Some(rest) => Some([v] + rest)
  {
    var d := Dec(v as nat);
    var s := (if first then "" else ".") + d + tail;
    var t := d + tail;
    if first {
      assert s == t;
    } else {
      assert s[1..] == t;
    }
    ParseOctetOfDec(v, tail);
    assert t[|d|..] == tail;
  }

  /** Fields after the first start with their dot. */
  lemma OctetsTextHead(b: seq<byte>)
    ensures OctetsText(b, false) == [] || OctetsText(b, false)[0] == '.'
  {
    if b != [] {
      var d := Dec(b[0] as nat);
      assert OctetsText(b, false) == "." + (d + OctetsText(b[1..], false));
    }
  }

  /** One field in front of fields that read back as `rest` reads back as `[v] + rest`. */
  lemma FieldsCons(v: byte, tail: string, rest: seq<byte>, first: bool)
    requires tail == [] || tail[0] == '.'
    requires ParseIPv4Fields(tail, |rest|, false) == Some(rest)
    ensures ParseIPv4Fields((if first then "" else ".") + Dec(v as nat) + tail, |rest| + 1, first) == Some([v] + rest)
  {
    FieldStep(v, tail, |rest| + 1, first);
  }

  /** Reading the dotted fields of `b` gives `b` back. */
  lemma {:induction false} ParseOctetsText(b: seq<byte>, first: bool)
    ensures ParseIPv4Fields(OctetsText(b, first), |b|, first) == Some(b)
  {
    if b != [] {
      var tail := OctetsText(b[1..], false);
      ParseOctetsText(b[1..], false);
      OctetsTextHead(b[1..]);
      FieldsCons(b[0], tail, b[1..], first);
      assert [b[0]] + b[1..] == b;
    }
  }

  /** A run of characters with no '.' or ':' does not decide how ParseIP reads the text. */
  lemma {:induction false} FirstSeparatorSkips(d: string, rest: string)
    requires AllDigits(d)
    ensures FirstSeparator(d + rest) == FirstSeparator(rest)
  {
    if d != [] {
      assert (d + rest)[1..] == d[1..] + rest;
      FirstSeparatorSkips(d[1..], rest);
    } else {
      assert d + rest == rest;
    }
  }

  /** The dotted fields of `b` hold only digits and dots. */
  lemma {:induction false} OctetsTextChars(b: seq<byte>, first: bool)
    ensures forall i :: 0 <= i < |OctetsText(b, first)| ==> IsDigit(OctetsText(b, first)[i]) || OctetsText(b, first)[i] == '.'
  {
    if b != [] {
      OctetsTextChars(b[1..], false);
      var d := Dec(b[0] as nat);
      var pre := (if first then "" else ".") + d;
      var rest := OctetsText(b[1..], false);
      assert OctetsText(b, first) == pre + rest;
      forall i | 0 <= i < |pre + rest|
        ensures IsDigit((pre + rest)[i]) || (pre + rest)[i] == '.'
      {
        if i >= |pre| {
          assert (pre + rest)[i] == rest[i - |pre|];
        } else if !first && i == 0 {
          assert (pre + rest)[i] == '.';
        } else {
          assert (pre + rest)[i] == d[i - |pre| + |d|];
        }
      }
    }
  }

  /** A dotted quad holds no ':', '[' or ']'. */
  lemma DottedQuadHasNoColonOrBracket(b: seq<byte>)
    requires |b| == 4
    ensures ':' !in DottedQuad(b) && '[' !in DottedQuad(b) && ']' !in DottedQuad(b)
  {
    OctetsTextChars(b, true);
  }

  /** net.ParseIP of a dotted quad is that IPv4 address in 16-byte form, and
      IP.String of the 4-byte form gives the dotted quad back. */
  lemma DottedQuadRoundTrip(b: seq<byte>)
    requires |b| == 4
    ensures ParseIP(DottedQuad(b)) == Some(IPv4(b))
    ensures To4(IPv4(b)) == Some(b)
    ensures IPString(b) == DottedQuad(b)
  {
    var s := DottedQuad(b);
    var d := Dec(b[0] as nat);
    var tail := OctetsText(b[1..], false);
    assert s == d + tail;
    assert tail == "." + Dec(b[1] as nat) + OctetsText(b[2..], false);
    FirstSeparatorSkips(d, tail);
    ParseOctetsText(b, true);
    assert IPv4(b)[..12] == V4InV6Prefix;
  }
}
