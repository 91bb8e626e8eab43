/** The state every adapter shares (its name, its own server address, the metadata
    of that address, its kind, whether it relays UDP, and the upstream it dials
    through), the connection wrappers that record the chain of adapters, and the
    latency test with its resolve-and-rewrite step. */
module OutboundBase {
  import opened Prelude
  import opened Strconv
  import opened HostPort
  import opened NetIP
  import opened Metadata
  import opened Transport

  /** The adapter kinds. */
  datatype AdapterType = Direct | Shadowsocks | ShadowsocksR | Socks5 | Trojan

  /** The own address an adapter builds from its server and port. */
  function ServerAddress(server: string, port: int): string {
    JoinHostPort(server, Itoa(port))
  }

  /** The metadata of an adapter's own address: it parses whenever the server
      holds no bracket, and then keeps the server as its destination and the
      port's decimal text, which reads back as the port. */
  lemma ServerAddressMetadata(server: string, port: int)
    requires MinInt64 <= port <= MaxInt64
    ensures '[' !in server && ']' !in server ==> NewMetadata(ServerAddress(server, port)).Success?
    ensures '[' !in server && ']' !in server ==>
      var md := NewMetadata(ServerAddress(server, port)).value;
      && md.dstPort == Itoa(port)
      && AtoiOrZero(md.dstPort) == port
      && (md.Valid() <==> server != "")
      && (ParseIP(server).None? ==> md.host == server)
  {
    ItoaHasNoColonOrBracket(port);
    AtoiItoa(port);
    if '[' !in server && ']' !in server {
      SplitJoin(server, Itoa(port));
    }
  }

  /** The metadata NewMetadata gives for `addr`, if it parses. */
  function MetadataOf(addr: string): (r: Option<Metadata>)
    ensures r.Some? <==> NewMetadata(addr).Success?
    ensures r.Some? ==> r.value == NewMetadata(addr).value
  {
    if NewMetadata(addr).Success? then Some(NewMetadata(addr).value) else None
  }

  /** The error NewMetadata gives for `addr`, if any. */
  function MetadataError(addr: string): (r: Option<Error>)
    ensures r.None? <==> NewMetadata(addr).Success?
    ensures r.Some? ==> r.value == NewMetadata(addr).error
  {
    if NewMetadata(addr).Success? then None else Some(NewMetadata(addr).error)
  }

  class Base {
    var name: string
    var addr: string
    var addrMetadata: Option<Metadata>
    var tp: AdapterType
    var udp: bool
    var dialer: Option<Dialer>

    /** NewBase: the given fields; the own address has no metadata yet. */
    constructor NewBase(name: string, addr: string, tp: AdapterType, udp: bool, dialer: Option<Dialer>)
      ensures Name() == name && Addr() == addr && Type() == tp && SupportUDP() == udp
      ensures this.dialer == dialer && addrMetadata.None?
    {
      this.name := name;
      this.addr := addr;
      this.addrMetadata := None;
      this.tp := tp;
      this.udp := udp;
      this.dialer := dialer;
    }

    function Name(): string
      reads this
    {
      name
    }

    function Type(): AdapterType
      reads this
    {
      tp
    }

    function Addr(): string
      reads this
    {
      addr
    }

    function SupportUDP(): bool
      reads this
    {
      udp
    }

    /** `addrMetadata, err = NewMetadata(addr)`: the metadata of the own address
        when it parses, absent otherwise, and the parse error. */
    method SetAddrMetadata() returns (err: Option<Error>)
      modifies this`addrMetadata
      ensures addrMetadata == MetadataOf(addr) && err == MetadataError(addr)
    {
      var md := NewMetadata(addr);
      addrMetadata := if md.Success? then Some(md.value) else None;
      err := if md.Success? then None else Some(md.error);
    }

    /** SetDialer: replaces the upstream and nothing else. */
    method SetDialer(d: Dialer)
      modifies this`dialer
      ensures dialer == Some(d)
      ensures Name() == old(Name()) && Addr() == old(Addr()) && Type() == old(Type())
      ensures SupportUDP() == old(SupportUDP()) && addrMetadata == old(addrMetadata)
    {
      dialer := Some(d);
    }

    /** The default StreamConn: hands the connection back, with a "no support" error. */
    function StreamConn(c: NetConn, md: Metadata): (r: Ret<NetConn>)
      ensures r.value == Some(c) && r.err == Some(NoSupport)
    {
      Ret(Some(c), Some(NoSupport))
    }

    /** The default DialUDP: no packet connection, a "no support" error. */
    function DialUDP(md: Metadata): (r: Result<NetPacketConn>)
      ensures r.Failure? && r.error == NoSupport
    {
      Failure(NoSupport)
    }
  }

  /** A stream connection handed out by an adapter, with the names of the adapters
      it went through. The wrapped connection may be absent: some adapters wrap the
      outcome of a failed stream set-up. */
  class ChainConn {
    const conn: Option<NetConn>
    var chain: seq<string>

    /** NewConn: a fresh one-entry chain holding the adapter's name; the chain of
        the wrapped connection is not carried over. */
    constructor NewConn(c: Option<NetConn>, a: Base)
      ensures conn == c && Chains() == [a.Name()]
    {
      conn := c;
      chain := [a.name];
    }

    function Chains(): seq<string>
      reads this
    {
      chain
    }

    /** AppendToChains: one more name at the end, the earlier ones kept. */
    method AppendToChains(a: Base)
      modifies this`chain
      ensures Chains() == old(Chains()) + [a.Name()]
      ensures |Chains()| == |old(Chains())| + 1 && old(Chains()) <= Chains()
    {
      chain := chain + [a.name];
    }
  }

  /** A packet connection handed out by an adapter, with its chain of adapter names. */
  class ChainPacketConn {
    const pc: Option<NetPacketConn>
    var chain: seq<string>

    /** newPacketConn: a fresh one-entry chain holding the adapter's name. */
    constructor NewPacketConn(pc: Option<NetPacketConn>, a: Base)
      ensures this.pc == pc && Chains() == [a.Name()]
    {
      this.pc := pc;
      chain := [a.name];
    }

    function Chains(): seq<string>
      reads this
    {
      chain
    }

    /** AppendToChains: one more name at the end, the earlier ones kept. */
    method AppendToChains(a: Base)
      modifies this`chain
      ensures Chains() == old(Chains()) + [a.Name()]
      ensures |Chains()| == |old(Chains())| + 1 && old(Chains()) <= Chains()
    {
      chain := chain + [a.name];
    }
  }

  /** The resolve step of the latency test's dial function, on values: with
      resolution asked for and no IP known yet, look the host name up; no answer or
      an empty answer is an error; otherwise the first IP replaces the host name and
      the address type follows the IP's length. */
  function ResolveStep(md: Metadata, resolveAddr: bool, lookupIP: string -> Result<seq<IP>>): (r: Result<Metadata>)
    ensures r.Failure? <==> resolveAddr && !md.Resolved() && (lookupIP(md.host).Failure? || lookupIP(md.host).value == [])
    ensures r.Failure? && lookupIP(md.host).Failure? ==> r.error == lookupIP(md.host).error
    ensures r.Failure? && lookupIP(md.host).Success? ==> r.error == NoAddressForDomain(md.host)
    ensures !resolveAddr || md.Resolved() ==> r == Success(md)
    ensures r.Success? && resolveAddr ==> r.value.Resolved() && r.value.Valid()
    ensures r.Success? && r.value != md ==>
      && r.value.dstIP == Some(lookupIP(md.host).value[0])
      && r.value.host == ""
      && (r.value.addrType == ATypIPv4 <==> |r.value.dstIP.value| == 4)
      && (r.value.addrType == ATypIPv6 <==> |r.value.dstIP.value| != 4)
      && r.value.dstPort == md.dstPort && r.value.netWork == md.netWork
  {
    if !resolveAddr || md.Resolved() then Success(md)
    else
      match lookupIP(md.host)
      case Failure(e) => Failure(e)
      case Success(ips) =>
        if ips == [] then Failure(NoAddressForDomain(md.host))
        else
          var ip := ips[0];
          Success(md.(dstIP := Some(ip), host := "", addrType := if |ip| == 4 then ATypIPv4 else ATypIPv6))
  }

  /** Resolving twice is resolving once: a resolved destination is left alone. */
  lemma ResolveStepIdempotent(md: Metadata, resolveAddr: bool, lookupIP: string -> Result<seq<IP>>, again: string -> Result<seq<IP>>)
    requires ResolveStep(md, resolveAddr, lookupIP).Success?
    ensures ResolveStep(ResolveStep(md, resolveAddr, lookupIP).value, resolveAddr, again) == ResolveStep(md, resolveAddr, lookupIP)
  {
  }

  /** The destination metadata of the latency test, which its dial function
      rewrites in place. */
  class Destination {
    var md: Metadata

    constructor (md: Metadata)
      ensures this.md == md
    {
      this.md := md;
    }

    /** The resolve step in place: on success the metadata becomes the resolved
        one, on failure it is left as it was. */
    method Resolve(resolveAddr: bool, lookupIP: string -> Result<seq<IP>>) returns (err: Option<Error>)
      modifies this
      ensures err.None? <==> ResolveStep(old(md), resolveAddr, lookupIP).Success?
      ensures err.None? ==> md == ResolveStep(old(md), resolveAddr, lookupIP).value
      ensures err.Some? ==> md == old(md) && err.value == ResolveStep(old(md), resolveAddr, lookupIP).error
    {
      err := None;
      if resolveAddr && !md.Resolved() {
        var ips := lookupIP(md.host);
        if ips.Failure? {
          return Some(ips.error);
        }
        if |ips.value| == 0 {
          return Some(NoAddressForDomain(md.host));
        }
        md := md.(dstIP := Some(ips.value[0]));
        md := md.(host := "");
        if |md.dstIP.value| == 4 {
          md := md.(addrType := ATypIPv4);
        } else {
          md := md.(addrType := ATypIPv6);
        }
      }
    }
  }

  /** What URLTest's HTTP client needs of its one dial: the resolve step, then the
      adapter's own dial to the (possibly rewritten) destination. */
  function TestDial(md: Metadata, resolveAddr: bool, lookupIP: string -> Result<seq<IP>>, dial: Metadata -> Result<NetConn>): Result<NetConn>
  {
    match ResolveStep(md, resolveAddr, lookupIP)
    case Failure(e) => Failure(e)
    case Success(m) => dial(m)
  }

  /** URLTest: fetch a URL through the adapter and time it. The URL's metadata, the
      request, the DNS lookup, the adapter's dial, the HTTP exchange, the elapsed
      time and the body read are the outcomes of calls outside the model. Every
      failure gives an empty body and latency 0; on success the latency is the
      elapsed milliseconds truncated to 16 bits. */
  method URLTest(
    urlMetadata: Result<Metadata>, resolveAddr: bool, lookupIP: string -> Result<seq<IP>>,
    dial: Metadata -> Result<NetConn>, requestErr: Option<Error>, exchangeErr: Option<Error>,
    elapsedMs: nat, readBody: Result<string>)
    returns (body: string, latency: int, err: Option<Error>)
    ensures 0 <= latency < 65536
    ensures err.Some? ==> body == "" && latency == 0
    ensures err.None? <==>
      && urlMetadata.Success?
      && requestErr.None?
      && TestDial(urlMetadata.value, resolveAddr, lookupIP, dial).Success?
      && exchangeErr.None?
      && readBody.Success?
    ensures err.None? ==> body == readBody.value && latency == elapsedMs % 65536
  {
    if urlMetadata.Failure? {
      return "", 0, Some(urlMetadata.error);
    }
    var dest := new Destination(urlMetadata.value);
    if requestErr.Some? {
      return "", 0, requestErr;
    }
    // The client's request dials through the dial function: resolve, then dial.
    var resolveErr := dest.Resolve(resolveAddr, lookupIP);
    if resolveErr.Some? {
      return "", 0, resolveErr;
    }
    var c := dial(dest.md);
    if c.Failure? {
      return "", 0, Some(c.error);
    }
    if exchangeErr.Some? {
      return "", 0, exchangeErr;
    }
    var t := elapsedMs % 65536;
    if readBody.Failure? {
      return "", 0, Some(readBody.error);
    }
    return readBody.value, t, None;
  }
}
