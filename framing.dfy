/** The packet connections the Shadowsocks and SOCKS5 adapters hand out. Each one
    frames a datagram with the SOCKS address of its peer (section 7 of RFC 1928) on
    the way out and takes the frame off in the caller's buffer on the way in. The
    buffer is an array that the read fills and then shifts in place; the datagram
    the underlying connection delivers, and the outcome of its calls, are
    parameters. */
module PacketFraming {
  import opened Prelude
  import opened NetIP
  import opened SocksWire

  function Min(a: int, b: int): int {
    if a < b then a else b
  }

  /** The contents of `dst` after Go's `copy(dst, src)`: the first
      min(len(dst), len(src)) elements come from `src`, the rest stay. */
  function CopyResult(dst: seq<byte>, src: seq<byte>): (r: seq<byte>)
    ensures |r| == |dst|
    ensures forall i :: 0 <= i < |r| ==> r[i] == (if i < |src| then src[i] else dst[i])
  {
    var k := Min(|dst|, |src|);
    src[..k] + dst[k..]
  }

  /** copy(b, src) in place; returns the number of elements copied. */
  method Copy(b: array<byte>, src: seq<byte>) returns (k: nat)
    modifies b
    ensures k == Min(b.Length, |src|)
    ensures b[..] == CopyResult(old(b[..]), src)
  {
    k := if b.Length < |src| then b.Length else |src|;
    var i := 0;
    while i < k
      invariant 0 <= i <= k
      invariant forall j :: 0 <= j < b.Length ==> b[j] == (if j < i then src[j] else old(b[j]))
    {
      b[i] := src[i];
      i := i + 1;
    }
  }

  /** The outcome of a read: the count, the sender, the error and the buffer. */
  datatype Read = Read(n: int, from: Option<UDPAddr>, err: Option<Error>, buf: seq<byte>)

  /** A datagram handed to the underlying connection, and where it goes. */
  datatype Datagram = Datagram(data: seq<byte>, to: Option<UDPAddr>)

  /** The address a SOCKS address read back from an encoded UDP address gives: the
      4-byte form of the IP when it has one, and the same port. */
  function Normalized(u: UDPAddr): UDPAddr {
    UDPAddr(if To4(u.ip).Some? then To4(u.ip).value else u.ip, u.port)
  }

  /** A UDP address whose SOCKS form reads back as its normalized self. */
  predicate Encodable(u: UDPAddr) {
    (|u.ip| == 4 || |u.ip| == 16) && 0 <= u.port < 65536
  }

  // ---------------------------------------------------------------- Shadowsocks

  /** ssPacketConn.WriteTo: the SOCKS UDP request for the payload and destination,
      without its three header bytes, sent to the server. */
  function SsWrite(payload: seq<byte>, addr: UDPAddr, server: UDPAddr): (r: Result<Datagram>)
    ensures r.Failure? <==> |addr.ip| == 0
    ensures r.Failure? ==> r.error == AddressInvalid
    ensures r.Success? ==>
      && r.value.to == Some(server)
      && r.value.data == ParseAddrToSocksAddr(addr).value + payload
  {
    match EncodeUDPPacket(ParseAddrToSocksAddr(addr), payload)
    case Failure(e) => Failure(e)
    case Success(packet) => Success(Datagram(packet[3..], Some(server)))
  }

  /** Shifting a buffer left by `k` with copy brings the bytes k..n to the front. */
  lemma ShiftedPrefix(s: seq<byte>, k: nat, n: nat)
    requires k <= n <= |s|
    ensures CopyResult(s, s[k..])[..n - k] == s[k..n]
  {
    var buf := CopyResult(s, s[k..]);
    assert forall i :: 0 <= i < n - k ==> buf[i] == s[k + i];
  }

  /** ssPacketConn.ReadFrom after the underlying read put `n` bytes at the front of
      the buffer `s`: the address at the front of those bytes names the sender, and
      the rest of the whole buffer is shifted to the front. A missing address, or a
      domain name, is a parse error. */
  function SsRead(s: seq<byte>, n: nat): (r: Read)
    requires n <= |s|
    ensures r.err.None? <==> SplitAddr(s[..n]).Some? && SplitAddr(s[..n]).value[0] != AtypDomainName
    ensures r.err.Some? ==> r == Read(0, None, Some(ParseAddrError), s)
    ensures r.err.None? ==>
      var a := SplitAddr(s[..n]).value;
      && r.n == n - |a| && 0 <= r.n <= |r.buf| == |s|
      && r.from == AddrUDPAddr(a)
      && r.buf[..r.n] == s[|a|..n]
  {
    match SplitAddr(s[..n])
    case None => Read(0, None, Some(ParseAddrError), s)
    case Some(a) =>
      match AddrUDPAddr(a)
      case None => Read(0, None, Some(ParseAddrError), s)
      case Some(u) =>
        ShiftedPrefix(s, |a|, n);
        Read(n - |a|, Some(u), None, CopyResult(s, s[|a|..]))
  }

  /** A reply framed as SsWrite frames a request reads back, into any buffer large
      enough to hold it, as its payload from its sender. */
  lemma SsRoundTrip(s: seq<byte>, payload: seq<byte>, sender: UDPAddr, server: UDPAddr)
    requires Encodable(sender)
    requires |ParseAddrToSocksAddr(sender).value| + |payload| <= |s|
    ensures SsWrite(payload, sender, server).Success?
    ensures
      var d := SsWrite(payload, sender, server).value.data;
      var r := SsRead(CopyResult(s, d), |d|);
      && r.err.None? && r.n == |payload| && r.from == Some(Normalized(sender))
      && r.buf[..r.n] == payload
  {
    UDPAddrRoundTrip(sender);
    var a := ParseAddrToSocksAddr(sender).value;
    var d := a + payload;
    var s1 := CopyResult(s, d);
    assert s1[..|d|] == d;
    SplitAddrOfAddr(a, payload);
  }

  /** The packet connection of the Shadowsocks adapter: datagrams go to the server. */
  class SsPacketConn {
    const rAddr: UDPAddr

    constructor (rAddr: UDPAddr)
      ensures this.rAddr == rAddr
    {
      this.rAddr := rAddr;
    }

    /** WriteTo: what goes to the underlying connection. */
    method WriteTo(b: seq<byte>, addr: UDPAddr) returns (d: Option<Datagram>, err: Option<Error>)
      ensures d.None? <==> err.Some?
      ensures d.Some? ==> SsWrite(b, addr, rAddr) == Success(d.value)
      ensures err.Some? ==> SsWrite(b, addr, rAddr) == Failure(err.value)
    {
      var packet := EncodeUDPPacket(ParseAddrToSocksAddr(addr), b);
      if packet.Failure? {
        return None, Some(packet.error);
      }
      return Some(Datagram(packet.value[3..], Some(rAddr))), None;
    }

    /** ReadFrom: the underlying read fills the buffer (or fails), then the frame
        is taken off in place. */
    method ReadFrom(b: array<byte>, received: Result<seq<byte>>) returns (n: int, addr: Option<UDPAddr>, err: Option<Error>)
      modifies b
      ensures received.Failure? ==> n == 0 && addr.None? && err == Some(received.error) && b[..] == old(b[..])
      ensures received.Success? ==>
        Read(n, addr, err, b[..]) == SsRead(CopyResult(old(b[..]), received.value), Min(b.Length, |received.value|))
    {
      if received.Failure? {
        return 0, None, Some(received.error);
      }
      var m := Copy(b, received.value);
      var a := SplitAddr(b[..m]);
      if a.None? {
        return 0, None, Some(ParseAddrError);
      }
      var u := AddrUDPAddr(a.value);
      if u.None? {
        return 0, None, Some(ParseAddrError);
      }
      var _ := Copy(b, b[|a.value|..]);
      return m - |a.value|, u, None;
    }
  }

  // ---------------------------------------------------------------- SOCKS5

  /** socksPacketConn.WriteTo: the whole SOCKS UDP request, sent to the relay. */
  function SocksWrite(payload: seq<byte>, addr: UDPAddr, relay: Option<UDPAddr>): (r: Result<Datagram>)
    ensures r.Failure? <==> |addr.ip| == 0
    ensures r.Failure? ==> r.error == AddressInvalid
    ensures r.Success? ==>
      && r.value.to == relay
      && r.value.data == UDPHeader + ParseAddrToSocksAddr(addr).value + payload
  {
    match EncodeUDPPacket(ParseAddrToSocksAddr(addr), payload)
    case Failure(e) => Failure(e)
    case Success(packet) => Success(Datagram(packet, relay))
  }

  /** The intended socksPacketConn.ReadFrom: decode the `n` bytes received; the
      payload moves to the front of the buffer and the count is its length. */
  function SocksRead(s: seq<byte>, n: nat): (r: Read)
    requires n <= |s|
    ensures DecodeUDPPacket(s[..n]).Failure? ==> r == Read(0, None, Some(DecodeUDPPacket(s[..n]).error), s)
    ensures r.err.None? <==> DecodeUDPPacket(s[..n]).Success? && DecodeUDPPacket(s[..n]).value.0[0] != AtypDomainName
    ensures DecodeUDPPacket(s[..n]).Success? && DecodeUDPPacket(s[..n]).value.0[0] == AtypDomainName ==>
      r == Read(0, None, Some(ParseUDPAddrError), s)
    ensures r.err.None? ==>
      var (a, payload) := DecodeUDPPacket(s[..n]).value;
      && r.n == |payload| == n - |a| - 3 && r.n <= |r.buf| == |s|
      && r.from == AddrUDPAddr(a)
      && r.buf[..r.n] == payload
  {
    match DecodeUDPPacket(s[..n])
    case Failure(e) => Read(0, None, Some(e), s)
    case Success((a, payload)) =>
      match AddrUDPAddr(a)
      case None => Read(0, None, Some(ParseUDPAddrError), s)
      case Some(u) =>
        assert |s[..n]| == 3 + |a| + |payload|;
        Read(n - |a| - 3, Some(u), None, CopyResult(s, payload))
  }

  /** socksPacketConn.ReadFrom as written: it decodes the WHOLE buffer rather than
      the `n` bytes received, and still subtracts the frame from `n`. */
  function SocksReadAsWritten(s: seq<byte>, n: nat): (r: Read)
    requires n <= |s|
    ensures DecodeUDPPacket(s).Failure? ==> r == Read(0, None, Some(DecodeUDPPacket(s).error), s)
    ensures r.err.None? <==> DecodeUDPPacket(s).Success? && DecodeUDPPacket(s).value.0[0] != AtypDomainName
    ensures DecodeUDPPacket(s).Success? && DecodeUDPPacket(s).value.0[0] == AtypDomainName ==>
      r == Read(0, None, Some(ParseUDPAddrError), s)
    ensures r.err.None? ==>
      var (a, payload) := DecodeUDPPacket(s).value;
      && r.n == n - |a| - 3 && |payload| <= |r.buf| == |s|
      && r.from == AddrUDPAddr(a)
      && r.buf[..|payload|] == payload
  {
    match DecodeUDPPacket(s)
    case Failure(e) => Read(0, None, Some(e), s)
    case Success((a, payload)) =>
      match AddrUDPAddr(a)
      case None => Read(0, None, Some(ParseUDPAddrError), s)
      case Some(u) => Read(n - |a| - 3, Some(u), None, CopyResult(s, payload))
  }

  /** When the bytes received hold a whole request, the code as written reports the
      same count, sender and payload as the intended read. */
  lemma AsWrittenAgreesOnWholePackets(s: seq<byte>, n: nat)
    requires n <= |s|
    requires DecodeUDPPacket(s[..n]).Success?
    ensures
      var w := SocksReadAsWritten(s, n);
      var c := SocksRead(s, n);
      && w.n == c.n && w.from == c.from && w.err == c.err
      && (c.err.None? ==> w.buf[..w.n] == c.buf[..c.n])
  {
    var (a, payload) := DecodeUDPPacket(s[..n]).value;
    assert s[..n] == UDPHeader + a + payload;
    assert s[..2] == [0, 0] && s[2] == 0;
    assert s[3..] == a + s[3 + |a|..];
    SplitAddrOfAddr(a, s[3 + |a|..]);
    assert DecodeUDPPacket(s) == Success((a, s[3 + |a|..]));
    var tail := s[3 + |a|..];
    assert tail[..|payload|] == payload;
  }

  /** The discrepancy: a two-byte datagram read into a buffer that still holds an
      earlier request is reported as a success from that earlier sender, with the
      count -8; the intended read reports a short packet. */
  lemma ShortDatagramNegativeCount()
    ensures
      var s := CopyResult([0, 0, 0, 1, 9, 9, 9, 9, 0, 80, 7, 7], [0, 0]);
      && SocksReadAsWritten(s, 2).err.None?
      && SocksReadAsWritten(s, 2).n == -8
      && SocksReadAsWritten(s, 2).from == Some(UDPAddr([9, 9, 9, 9], 80))
      && SocksRead(s, 2).err == Some(ShortPacket)
  {
    var s := CopyResult([0, 0, 0, 1, 9, 9, 9, 9, 0, 80, 7, 7], [0, 0]);
    assert s == [0, 0, 0, 1, 9, 9, 9, 9, 0, 80, 7, 7];
    assert s[3..] == [1, 9, 9, 9, 9, 0, 80] + [7, 7];
    var a: seq<byte> := [1, 9, 9, 9, 9, 0, 80];
    SplitAddrOfAddr(a, [7, 7]);
    assert a[1..|a| - 2] == [9, 9, 9, 9] && AddrPort(a) == 80;
  }

  /** A reply framed as SocksWrite frames a request reads back, into any buffer
      large enough to hold it, as its payload from its sender. */
  lemma SocksRoundTrip(s: seq<byte>, payload: seq<byte>, sender: UDPAddr, relay: Option<UDPAddr>)
    requires Encodable(sender)
    requires 3 + |ParseAddrToSocksAddr(sender).value| + |payload| <= |s|
    ensures SocksWrite(payload, sender, relay).Success?
    ensures
      var d := SocksWrite(payload, sender, relay).value.data;
      var r := SocksRead(CopyResult(s, d), |d|);
      && r.err.None? && r.n == |payload| && r.from == Some(Normalized(sender))
      && r.buf[..r.n] == payload
  {
    UDPAddrRoundTrip(sender);
    var a := ParseAddrToSocksAddr(sender).value;
    DecodeEncode(a, payload);
    var d := UDPHeader + a + payload;
    var s1 := CopyResult(s, d);
    assert s1[..|d|] == d;
  }

  /** The packet connection of the SOCKS5 adapter: datagrams go to the relay the
      UDP ASSOCIATE reply named; the control connection lives as long as it. */
  class SocksPacketConn {
    const relay: Option<UDPAddr>
    var controlOpen: bool
    var packetOpen: bool

    constructor (relay: Option<UDPAddr>)
      ensures this.relay == relay && controlOpen && packetOpen
    {
      this.relay := relay;
      controlOpen := true;
      packetOpen := true;
    }

    /** WriteTo: what goes to the underlying connection. */
    method WriteTo(b: seq<byte>, addr: UDPAddr) returns (d: Option<Datagram>, err: Option<Error>)
      ensures d.None? <==> err.Some?
      ensures d.Some? ==> SocksWrite(b, addr, relay) == Success(d.value)
      ensures err.Some? ==> SocksWrite(b, addr, relay) == Failure(err.value)
    {
      var packet := EncodeUDPPacket(ParseAddrToSocksAddr(addr), b);
      if packet.Failure? {
        return None, Some(packet.error);
      }
      return Some(Datagram(packet.value, relay)), None;
    }

    /** ReadFrom, corrected: the underlying read fills the buffer (or fails), then
        only the bytes received are decoded and the payload is moved to the front.
        ReadFromAsWritten below is the read as the adapter's code does it. */
    method ReadFrom(b: array<byte>, received: Result<seq<byte>>) returns (n: int, addr: Option<UDPAddr>, err: Option<Error>)
      modifies b
      ensures received.Failure? ==> n == 0 && addr.None? && err == Some(received.error) && b[..] == old(b[..])
      ensures received.Success? ==>
        Read(n, addr, err, b[..]) == SocksRead(CopyResult(old(b[..]), received.value), Min(b.Length, |received.value|))
    {
      if received.Failure? {
        return 0, None, Some(received.error);
      }
      var m := Copy(b, received.value);
      var decoded := DecodeUDPPacket(b[..m]);
      if decoded.Failure? {
        return 0, None, Some(decoded.error);
      }
      var (a, payload) := decoded.value;
      var u := AddrUDPAddr(a);
      if u.None? {
        return 0, None, Some(ParseUDPAddrError);
      }
      var _ := Copy(b, payload);
      return m - |a| - 3, u, None;
    }

    /** ReadFrom as written: the same steps, but the decode reads the whole buffer
        instead of the bytes just received. */
    method ReadFromAsWritten(b: array<byte>, received: Result<seq<byte>>) returns (n: int, addr: Option<UDPAddr>, err: Option<Error>)
      modifies b
      ensures received.Failure? ==> n == 0 && addr.None? && err == Some(received.error) && b[..] == old(b[..])
      ensures received.Success? ==>
        Read(n, addr, err, b[..]) == SocksReadAsWritten(CopyResult(old(b[..]), received.value), Min(b.Length, |received.value|))
    {
      if received.Failure? {
        return 0, None, Some(received.error);
      }
      var m := Copy(b, received.value);
      var decoded := DecodeUDPPacket(b[..]);
      if decoded.Failure? {
        return 0, None, Some(decoded.error);
      }
      var (a, payload) := decoded.value;
      var u := AddrUDPAddr(a);
      if u.None? {
        return 0, None, Some(ParseUDPAddrError);
      }
      var _ := Copy(b, payload);
      return m - |a| - 3, u, None;
    }

    /** Close: closes the control connection (its error is dropped) and the packet
        connection, whose error is the result. */
    method Close(packetErr: Option<Error>) returns (err: Option<Error>)
      modifies this
      ensures !controlOpen && !packetOpen && err == packetErr
    {
      controlOpen := false;
      packetOpen := false;
      err := packetErr;
    }
  }
}
