/** The connection metadata every adapter dials to: a destination given either as a
    host name or as an IP, a port text, the transport kind and the socks address type. */
module Metadata {
  import opened Prelude
  import opened Strconv
  import opened NetIP
  import opened HostPort

  // Socks address types.
  const ATypIPv4 := 1
  const ATypDomainName := 3
  const ATypIPv6 := 4

  /** The transport kinds share the constant block of the address types, whose
      `iota` has already reached 3 when TCP is declared: TCP is 3 and UDP is 4,
      and the zero value of a NetWork is neither. */
  const TCP := 3
  const UDP := 4

  type NetWork = int

  /** NetWork.String: only TCP is "tcp"; every other value, the zero value
      included, prints as "udp". */
  function NetWorkString(n: NetWork): (r: string)
    ensures r == "tcp" <==> n == TCP
    ensures r != "tcp" ==> r == "udp"
  {
    if n == TCP then "tcp" else "udp"
  }

  datatype Metadata = Metadata(netWork: NetWork, dstIP: Option<IP>, dstPort: string, addrType: int, host: string)
  {
    /** A destination IP is known. */
    predicate Resolved() {
      dstIP.Some?
    }

    /** There is something to dial: a host name or an IP. */
    predicate Valid() {
      host != "" || dstIP.Some?
    }

    /** The destination as text: the host name when there is one, else the IP. */
    function String(): (r: string)
      ensures host != "" ==> r == host
      ensures host == "" && dstIP.Some? ==> r == IPString(dstIP.value)
      ensures !Valid() ==> r == "<nil>"
    {
      if host != "" then host
      else if dstIP.Some? then IPString(dstIP.value)
      else "<nil>"
    }

    /** The "host:port" text of the destination. */
    function RemoteAddress(): string {
      JoinHostPort(String(), dstPort)
    }

    /** The UDP endpoint, only for a resolved UDP destination; a port that is not
        a number reads as 0. */
    function UDPAddr(): (r: Option<NetIP.UDPAddr>)
      ensures r.Some? <==> netWork == UDP && Resolved()
      ensures r.Some? ==> r.value.ip == dstIP.value && r.value.port == AtoiOrZero(dstPort)
    {
      if netWork != UDP || dstIP.None? then None
      else Some(NetIP.UDPAddr(dstIP.value, AtoiOrZero(dstPort)))
    }
  }

  /** Splitting the remote address gives String() and the port back whenever
      neither holds a bracket and the port holds no ':'. */
  lemma RemoteAddressSplits(md: Metadata)
    requires '[' !in md.String() && ']' !in md.String()
    requires ':' !in md.dstPort && '[' !in md.dstPort && ']' !in md.dstPort
    ensures SplitHostPort(md.RemoteAddress()) == Success((md.String(), md.dstPort))
  {
    SplitJoin(md.String(), md.dstPort);
  }

  /** NewMetadata: split "host:port"; a host that parses as an IP is stored as the
      IP (its 4-byte form with address type IPv4 when it has one, else the 16-byte
      form with address type IPv6), any other host is stored as a name with the
      address type left at 0. The transport kind is left at its zero value. */
  function NewMetadata(addr: string): (r: Result<Metadata>)
    ensures r.Failure? <==> SplitHostPort(addr).Failure?
    ensures r.Failure? ==> r.error == SplitHostPort(addr).error
    ensures r.Success? ==>
      var (host, port) := SplitHostPort(addr).value;
      var md := r.value;
      && md.dstPort == port
      && md.netWork == 0
      && md.UDPAddr().None?
      && (md.Valid() <==> host != "")
      && (md.Resolved() <==> ParseIP(host).Some?)
      && (ParseIP(host).None? ==> md.host == host && md.addrType == 0)
      && (ParseIP(host).Some? ==> md.host == "" && Some(md.dstIP.value) == (if To4(ParseIP(host).value).Some? then To4(ParseIP(host).value) else ParseIP(host)))
      && (md.Resolved() ==> (md.addrType == ATypIPv4 <==> |md.dstIP.value| == 4))
      && (md.Resolved() ==> (md.addrType == ATypIPv6 <==> |md.dstIP.value| == 16))
  {
    match SplitHostPort(addr)
    case Failure(e) => Failure(e)
    case Success((host, port)) =>
      var ip := ParseIP(host);
      if ip.None? then Success(Metadata(0, None, port, 0, host))
      else
        var v4 := To4(ip.value);
        if v4.Some? then Success(Metadata(0, v4, port, ATypIPv4, ""))
        else Success(Metadata(0, ip, port, ATypIPv6, ""))
  }

  /** An address with an empty host parses, but names nothing to dial. */
  lemma EmptyHostNotValid(port: string)
    requires ':' !in port && '[' !in port && ']' !in port
    ensures NewMetadata(":" + port).Success?
    ensures !NewMetadata(":" + port).value.Valid() && NewMetadata(":" + port).value.dstPort == port
  {
    SplitJoinPlain("", port);
  }

  /** A host name that is not an IP survives NewMetadata: the remote address of
      the metadata is the text it was built from. */
  lemma RemoteAddressOfDomain(addr: string, host: string, port: string)
    requires addr == host + ":" + port
    requires host != "" && ParseIP(host).None?
    requires ':' !in host && '[' !in host && ']' !in host
    requires ':' !in port && '[' !in port && ']' !in port
    ensures NewMetadata(addr).Success?
    ensures NewMetadata(addr).value.host == host && !NewMetadata(addr).value.Resolved()
    ensures NewMetadata(addr).value.RemoteAddress() == addr
  {
    SplitJoinPlain(host, port);
  }

  /** A dotted-quad IPv4 host is stored as its four bytes with address type IPv4. */
  lemma NewMetadataOfIPv4(b: seq<byte>, port: string)
    requires |b| == 4
    requires ':' !in port && '[' !in port && ']' !in port
    ensures NewMetadata(DottedQuad(b) + ":" + port) == Success(Metadata(0, Some(b), port, ATypIPv4, ""))
  {
    DottedQuadHasNoColonOrBracket(b);
    SplitJoinPlain(DottedQuad(b), port);
    DottedQuadRoundTrip(b);
  }

  /** The remote address of a dotted-quad IPv4 metadata is the text it was built from. */
  lemma RemoteAddressOfIPv4(addr: string, b: seq<byte>, port: string)
    requires |b| == 4
    requires addr == DottedQuad(b) + ":" + port
    requires ':' !in port && '[' !in port && ']' !in port
    ensures NewMetadata(addr).Success?
    ensures NewMetadata(addr).value.dstIP == Some(b) && NewMetadata(addr).value.addrType == ATypIPv4
    ensures NewMetadata(addr).value.RemoteAddress() == addr
  {
    NewMetadataOfIPv4(b, port);
    DottedQuadRoundTrip(b);
    DottedQuadHasNoColonOrBracket(b);
  }

  /** The port text "53" reads as 53. */
  lemma DNSPort()
    ensures AtoiOrZero("53") == 53
  {
    assert "53"[..1] == "5" && "5"[..0] == "";
    assert DecValue("53") == DecValue("5") * 10 + 3;
  }

  /** The destination the URL test's resolver dials for its DNS queries:
      8.8.8.8 (stored in its 16-byte form), port "53", over UDP. Its UDP endpoint
      is 8.8.8.8 port 53, which is also the address the resolver's connection
      reports as its peer. */
  function ResolverMetadata(): (r: Metadata)
    ensures r.UDPAddr().Some? && r.UDPAddr().value.port == 53
    ensures To4(r.UDPAddr().value.ip) == Some([8, 8, 8, 8])
    ensures r.addrType == ATypIPv4
  {
    var b: seq<byte> := [8, 8, 8, 8];
    DottedQuadRoundTrip(b);
    DNSPort();
    Metadata(UDP, Some(IPv4(b)), "53", ATypIPv4, "")
  }
}
