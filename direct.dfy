/** The direct adapter: the leaf of every chain, which connects to the destination
    itself through the operating system's network. */
module Direct {
  import opened Prelude
  import opened Metadata
  import opened Transport
  import opened OutboundBase

  datatype DirectAdapter = DirectAdapter(base: Base)
  {
    /** StreamConn: the connection unchanged, no error. */
    function StreamConn(c: NetConn, md: Metadata): (r: Ret<NetConn>)
      ensures r.value == Some(c) && r.err.None?
    {
      Ret(Some(c), None)
    }

    /** DialContext: a TCP dial to the destination's own "host:port" (not to an
        address of the adapter); a failure is reported with the adapter's address,
        and a success is wrapped with a one-name chain. */
    method DialContext(md: Metadata, net: Network) returns (c: ChainConn?, err: Option<Error>)
      ensures net.dialTCP(md.RemoteAddress()).Failure? ==>
        c == null && err == Some(ConnectError(base.addr, net.dialTCP(md.RemoteAddress()).error))
      ensures net.dialTCP(md.RemoteAddress()).Success? ==>
        c != null && fresh(c) && err.None? && c.conn == Some(net.dialTCP(md.RemoteAddress()).value)
      ensures c != null ==> c.Chains() == [base.name]
    {
      var dialed := net.dialTCP(md.RemoteAddress());
      if dialed.Failure? {
        return null, Some(ConnectError(base.addr, dialed.error));
      }
      c := new ChainConn.NewConn(Some(dialed.value), base);
      err := None;
    }

    /** DialUDP: an unbound UDP socket wrapped together with the destination's
        resolved "host:port", which the wrapper records. */
    method DialUDP(md: Metadata, net: Network) returns (pc: ChainPacketConn?, err: Option<Error>)
      ensures net.listenUDP.Failure? ==> pc == null && err == Some(net.listenUDP.error)
      ensures net.listenUDP.Success? && net.resolveUDP(md.RemoteAddress()).Failure? ==>
        pc == null && err == Some(net.resolveUDP(md.RemoteAddress()).error)
      ensures net.listenUDP.Success? && net.resolveUDP(md.RemoteAddress()).Success? ==>
        && pc != null && fresh(pc) && err.None?
        && pc.pc == Some(net.listenUDP.value.With(DirectFraming(net.resolveUDP(md.RemoteAddress()).value)))
        && pc.Chains() == [base.name]
    {
      if net.listenUDP.Failure? {
        return null, Some(net.listenUDP.error);
      }
      var addr := net.resolveUDP(md.RemoteAddress());
      if addr.Failure? {
        return null, Some(addr.error);
      }
      pc := new ChainPacketConn.NewPacketConn(Some(net.listenUDP.value.With(DirectFraming(addr.value))), base);
      err := None;
    }
  }

  /** NewDirect: never fails; no name, no address, no upstream, the Shadowsocks
      kind tag, and no UDP support. */
  method NewDirect() returns (d: DirectAdapter, err: Option<Error>)
    ensures fresh(d.base) && err.None?
    ensures d.base.Name() == "" && d.base.Addr() == "" && d.base.Type() == Shadowsocks
    ensures !d.base.SupportUDP() && d.base.dialer.None? && d.base.addrMetadata.None?
  {
    var b := new Base.NewBase("", "", Shadowsocks, false, None);
    d := DirectAdapter(b);
    err := None;
  }

  /** A connection the direct adapter made carries the chain [""]. */
  method DialDirect(md: Metadata, net: Network) returns (c: ChainConn?, err: Option<Error>)
    ensures c != null ==> c.Chains() == [""]
    ensures c == null <==> net.dialTCP(md.RemoteAddress()).Failure?
  {
    var d, _ := NewDirect();
    c, err := d.DialContext(md, net);
  }
}
