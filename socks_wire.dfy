/** Assumed helpers of the SOCKS component that the adapters call (component/socks5
    and the adapter package's serializesSocksAddr are not part of this model). They
    are defined after the address encoding of section 5 of RFC 1928 (ATYP 1, 3 or 4,
    a length-prefixed domain, a big-endian port) and the UDP request header of its
    section 7 (RSV RSV FRAG). */
module SocksWire {
  import opened Prelude
  import opened Strconv
  import opened NetIP
  import opened HostPort
  import opened Metadata

  const AtypIPv4: byte := 1
  const AtypDomainName: byte := 3
  const AtypIPv6: byte := 4

  /** The three bytes in front of the address in a UDP request: RSV RSV FRAG. */
  const UDPHeader: seq<byte> := [0, 0, 0]

  /** A complete SOCKS address: ATYP, the address field, two port bytes. */
  predicate IsAddr(a: seq<byte>) {
    && |a| >= 1
    && ((a[0] == AtypIPv4 && |a| == 7)
        || (a[0] == AtypIPv6 && |a| == 19)
        || (a[0] == AtypDomainName && |a| >= 2 && |a| == 4 + a[1] as int))
  }

  /** Value of two big-endian port bytes. */
  function PortValue(b: seq<byte>): nat
    requires |b| == 2
  {
    b[0] as nat * 256 + b[1] as nat
  }

  /** The two port bytes `uint8(p >> 8)` and `uint8(p & 0xff)`: the port truncated
      to 16 bits, big-endian (negative ports wrap as in two's complement). */
  function PortBytes(p: int): (r: seq<byte>)
    ensures |r| == 2 && PortValue(r) == p % 65536
  {
    var r: seq<byte> := [((p / 256) % 256) as byte, (p % 256) as byte];
    assert (p / 256) % 256 * 256 + p % 256 == p % 65536 by {
      var q := p / 256;
      assert p == q * 256 + p % 256;
      assert q == (q / 256) * 256 + q % 256;
      assert p == (q / 256) * 65536 + (q % 256 * 256 + p % 256);
    }
    r
  }

  /** The port bytes of a 16-bit port read back as that port. */
  lemma PortBytesOfPort(p: int)
    requires 0 <= p < 65536
    ensures PortValue(PortBytes(p)) == p
  {
  }

  /** The port of a complete address. */
  function AddrPort(a: seq<byte>): nat
    requires IsAddr(a)
  {
    PortValue(a[|a| - 2..])
  }

  /** The address field of a complete address (the IP bytes, or the domain without
      its length byte). */
  function AddrHost(a: seq<byte>): seq<byte>
    requires IsAddr(a)
  {
    if a[0] == AtypDomainName then a[2..|a| - 2] else a[1..|a| - 2]
  }

  /** SplitAddr: the complete address at the front of `b`, if `b` starts with one. */
  function SplitAddr(b: seq<byte>): (r: Option<seq<byte>>)
    ensures r.Some? ==> IsAddr(r.value) && r.value <= b
    ensures r.None? ==> forall k :: 0 <= k <= |b| ==> !IsAddr(b[..k])
  {
    if |b| < 1 then None
    else
      var len :=
        if b[0] == AtypDomainName then (if |b| < 2 then -1 else 4 + b[1] as int)
        else if b[0] == AtypIPv4 then 7
        else if b[0] == AtypIPv6 then 19
        else -1;
      if len < 0 || |b| < len then None else Some(b[..len])
  }

  /** A complete address at the front is found whatever follows it. */
  lemma SplitAddrOfAddr(a: seq<byte>, rest: seq<byte>)
    requires IsAddr(a)
    ensures SplitAddr(a + rest) == Some(a)
  {
    var b := a + rest;
    assert b[..|a|] == a;
    assert b[0] == a[0];
    assert a[0] == AtypDomainName ==> b[1] == a[1];
  }

  /** EncodeUDPPacket: RSV RSV FRAG, the address, the payload; no address is an error. */
  function EncodeUDPPacket(addr: Option<seq<byte>>, payload: seq<byte>): (r: Result<seq<byte>>)
    ensures r.Failure? <==> addr.None?
    ensures r.Failure? ==> r.error == AddressInvalid
    ensures r.Success? ==> |r.value| == 3 + |addr.value| + |payload|
    ensures r.Success? ==> r.value[..3] == UDPHeader && r.value[3..] == addr.value + payload
  {
    if addr.None? then Failure(AddressInvalid)
    else Success(UDPHeader + addr.value + payload)
  }

  /** DecodeUDPPacket: checks the header, then splits the address from the payload. */
  function DecodeUDPPacket(packet: seq<byte>): (r: Result<(seq<byte>, seq<byte>)>)
    ensures r.Success? ==> IsAddr(r.value.0) && packet == UDPHeader + r.value.0 + r.value.1
    ensures |packet| < 5 ==> r == Failure(ShortPacket)
    ensures |packet| >= 5 && packet[..2] != [0, 0] ==> r == Failure(ReservedNotZero)
    ensures |packet| >= 5 && packet[..2] == [0, 0] && packet[2] != 0 ==> r == Failure(Fragmented)
  {
    if |packet| < 5 then Failure(ShortPacket)
    else if packet[..2] != [0, 0] then Failure(ReservedNotZero)
    else if packet[2] != 0 then Failure(Fragmented)
    else
      match SplitAddr(packet[3..])
      case None => Failure(BadUDPHeader)
      case Some(a) =>
        assert packet == packet[..3] + packet[3..];
        assert packet[3..] == a + packet[3 + |a|..];
        Success((a, packet[3 + |a|..]))
  }

  /** Decoding an encoded packet gives back its address and payload. */
  lemma DecodeEncode(a: seq<byte>, payload: seq<byte>)
    requires IsAddr(a)
    ensures EncodeUDPPacket(Some(a), payload).Success?
    ensures DecodeUDPPacket(EncodeUDPPacket(Some(a), payload).value) == Success((a, payload))
  {
    var p := UDPHeader + a + payload;
    assert p[3..] == a + payload;
    SplitAddrOfAddr(a, payload);
    assert p[..2] == [0, 0];
    assert p[3 + |a|..] == payload;
  }

  /** Addr.UDPAddr: the IP and port of an IP address; none for a domain. */
  function AddrUDPAddr(a: seq<byte>): (r: Option<UDPAddr>)
    requires IsAddr(a)
    ensures r.Some? <==> a[0] != AtypDomainName
    ensures r.Some? ==> r.value == UDPAddr(AddrHost(a), AddrPort(a))
    ensures r.Some? ==> |r.value.ip| == 4 || |r.value.ip| == 16
  {
    if a[0] == AtypDomainName then None else Some(UDPAddr(a[1..|a| - 2], AddrPort(a)))
  }

  /** Go's `string(b)`, one character per byte. */
  function Chars(b: seq<byte>): (r: string)
    ensures |r| == |b|
  {
    seq(|b|, i requires 0 <= i < |b| => b[i] as int as char)
  }

  /** Addr.String: "host:port" with the host as text (an IP in its printed form). */
  function AddrString(a: seq<byte>): string
    requires IsAddr(a)
  {
    var host := if a[0] == AtypDomainName then Chars(AddrHost(a)) else IPString(AddrHost(a));
    JoinHostPort(host, Itoa(AddrPort(a)))
  }

  /** The 16-byte field the IPv6 branch copies an IP into: truncated, or padded with zeros. */
  function Field16(ip: IP): (r: seq<byte>)
    ensures |r| == 16
    ensures |ip| == 16 ==> r == ip
  {
    if |ip| >= 16 then ip[..16] else ip + Zeros(16 - |ip|)
  }

  /** ParseAddrToSocksAddr of a UDP address: the IPv4 form when the IP has one, else
      the IPv6 form; the port truncated to 16 bits. An address without an IP is
      taken as no address. */
  function ParseAddrToSocksAddr(u: UDPAddr): (r: Option<seq<byte>>)
    ensures r.None? <==> |u.ip| == 0
    ensures r.Some? ==> IsAddr(r.value) && r.value[0] != AtypDomainName
  {
    if |u.ip| == 0 then None
    else if To4(u.ip).Some? then Some([AtypIPv4] + To4(u.ip).value + PortBytes(u.port))
    else Some([AtypIPv6] + Field16(u.ip) + PortBytes(u.port))
  }

  /** Converting a UDP address to a SOCKS address and back keeps the port and the
      IP, in its 4-byte form when it has one. */
  lemma UDPAddrRoundTrip(u: UDPAddr)
    requires |u.ip| == 4 || |u.ip| == 16
    requires 0 <= u.port < 65536
    ensures ParseAddrToSocksAddr(u).Some?
    ensures AddrUDPAddr(ParseAddrToSocksAddr(u).value)
      == Some(UDPAddr(if To4(u.ip).Some? then To4(u.ip).value else u.ip, u.port))
  {
    var a := ParseAddrToSocksAddr(u).value;
    var ip := if To4(u.ip).Some? then To4(u.ip).value else u.ip;
    assert a == [a[0]] + ip + PortBytes(u.port);
    assert a[1..|a| - 2] == ip;
    assert a[|a| - 2..] == PortBytes(u.port);
  }

  /** An address of type `atyp`: the type byte, the field, the port bytes. */
  function Assemble(atyp: byte, field: seq<byte>, port: seq<byte>): (r: seq<byte>)
    requires |port| == 2
    ensures |r| == |field| + 3 && r[0] == atyp
    ensures r[1..|r| - 2] == field && r[|r| - 2..] == port
  {
    var r := [atyp] + field + port;
    assert r[1..|r| - 2] == field;
    r
  }

  /** serializesSocksAddr: the destination of a metadata as a SOCKS address, chosen
      by its address type; any other address type serializes to nothing. */
  function SerializeSocksAddr(md: Metadata): (r: seq<byte>)
    ensures md.addrType != ATypDomainName && md.addrType != ATypIPv4 && md.addrType != ATypIPv6 ==> r == []
    ensures md.addrType == ATypDomainName && |md.host| < 256 ==> IsAddr(r) && AddrHost(r) == Bytes(md.host)
    ensures md.addrType == ATypIPv4 && md.dstIP.Some? && To4(md.dstIP.value).Some? ==>
      IsAddr(r) && AddrHost(r) == To4(md.dstIP.value).value
    ensures md.addrType == ATypIPv6 && md.dstIP.Some? && |md.dstIP.value| == 16 ==>
      IsAddr(r) && AddrHost(r) == md.dstIP.value
    ensures IsAddr(r) ==> AddrPort(r) == AtoiOrZero(md.dstPort) % 65536
  {
    var port := PortBytes(AtoiOrZero(md.dstPort));
    if md.addrType == ATypDomainName then
      var r := Assemble(AtypDomainName, [(|md.host| % 256) as byte] + Bytes(md.host), port);
      assert r[2..|r| - 2] == r[1..|r| - 2][1..];
      r
    else if md.addrType == ATypIPv4 then
      Assemble(AtypIPv4, if md.dstIP.Some? && To4(md.dstIP.value).Some? then To4(md.dstIP.value).value else [], port)
    else if md.addrType == ATypIPv6 then
      Assemble(AtypIPv6, if md.dstIP.Some? && To16(md.dstIP.value).Some? then To16(md.dstIP.value).value else [], port)
    else []
  }

  /** The printed form of an IPv4 address. */
  lemma AddrStringIPv4(a: seq<byte>)
    requires IsAddr(a) && a[0] == AtypIPv4
    ensures AddrString(a) == DottedQuad(AddrHost(a)) + ":" + Itoa(AddrPort(a))
  {
    DottedQuadRoundTrip(AddrHost(a));
    DottedQuadHasNoColonOrBracket(AddrHost(a));
  }

  /** A relay address of IPv4 type, printed and read back by NewMetadata, gives the
      metadata of its IP (address type IPv4) with the port's decimal text, which
      reads back as the port by AtoiItoa. */
  lemma BindAddrMetadataIPv4(a: seq<byte>)
    requires IsAddr(a) && a[0] == AtypIPv4
    ensures NewMetadata(AddrString(a)) == Success(Metadata(0, Some(AddrHost(a)), Itoa(AddrPort(a)), ATypIPv4, ""))
  {
    AddrStringIPv4(a);
    ItoaHasNoColonOrBracket(AddrPort(a));
    NewMetadataOfIPv4(AddrHost(a), Itoa(AddrPort(a)));
  }

  /** A host name kept by NewMetadata has address type 0, so it serializes to no
      address at all. */
  lemma SerializeNewMetadataDomain(addr: string)
    requires NewMetadata(addr).Success? && !NewMetadata(addr).value.Resolved()
    ensures SerializeSocksAddr(NewMetadata(addr).value) == []
  {
  }
}
