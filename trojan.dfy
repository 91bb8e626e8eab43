/** The trojan adapter: a TLS client to the server, then the trojan request header
    (password, command and destination); datagrams travel framed inside the same
    stream. The TLS handshake and the header write are outside the model; their
    outcomes are parameters. */
module Trojan {
  import opened Prelude
  import opened Metadata
  import opened Transport
  import opened OutboundBase
  import opened SocksWire

  /** The typed options of a trojan adapter. */
  datatype TrojanOption = TrojanOption(
    name: string, server: string, port: int, password: string, alpn: seq<string>,
    sni: string, skipCertVerify: bool, udp: bool)

  /** What the trojan client is built with. */
  datatype InstanceOption = InstanceOption(
    password: string, alpn: seq<string>, serverName: string, skipCertVerify: bool, sessionCache: bool)

  /** The client's options: the password, protocols, verification switch and the
      shared session cache as given; the TLS server name is the SNI when one is
      set and the server otherwise. */
  function Instance(option: TrojanOption): (r: InstanceOption)
    ensures r.serverName == (if option.sni != "" then option.sni else option.server)
    ensures r.serverName == "" <==> option.sni == "" && option.server == ""
    ensures r.password == option.password && r.alpn == option.alpn
    ensures r.skipCertVerify == option.skipCertVerify && r.sessionCache
  {
    var o := InstanceOption(option.password, option.alpn, option.server, option.skipCertVerify, true);
    if option.sni != "" then o.(serverName := option.sni) else o
  }

  /** The TLS client configuration the instance dials with. */
  function InstanceTLS(o: InstanceOption): TLSConfig {
    TLSConfig(o.serverName, o.skipCertVerify, o.sessionCache, o.alpn)
  }

  datatype TrojanAdapter = TrojanAdapter(base: Base, instance: InstanceOption)
  {
    /** StreamConn: the instance's TLS client, whose failure is reported with the
        adapter's address; then the header with the TCP command and the serialized
        destination. The connection is returned together with the header write's
        error. */
    method StreamConn(c: NetConn, md: Metadata, tlsErr: Option<Error>, headerErr: Option<Error>)
      returns (r: Option<NetConn>, err: Option<Error>)
      ensures tlsErr.Some? ==> r.None? && err == Some(ConnectError(base.addr, tlsErr.value))
      ensures tlsErr.None? ==>
        && err == headerErr
        && r == Some(c.With(TrojanTLS(InstanceTLS(instance))).With(TrojanHeader(TrojanTCP, SerializeSocksAddr(md))))
      ensures r.Some? ==> r.value.socket == c.socket && |r.value.layers| == |c.layers| + 2
    {
      var cc := c.With(TrojanTLS(InstanceTLS(instance)));
      if tlsErr.Some? {
        return None, Some(ConnectError(base.addr, tlsErr.value));
      }
      cc := cc.With(TrojanHeader(TrojanTCP, SerializeSocksAddr(md)));
      return Some(cc), headerErr;
    }

    /** DialContext: dial the own address through the upstream, then StreamConn;
        any failure gives no connection and its error. */
    method DialContext(md: Metadata, tlsErr: Option<Error>, headerErr: Option<Error>)
      returns (c: ChainConn?, err: Option<Error>)
      requires base.dialer.Some?
      ensures c == null <==> err.Some?
      ensures base.dialer.value.dialContext(base.addrMetadata).Failure? ==>
        err == Some(base.dialer.value.dialContext(base.addrMetadata).error)
      ensures base.dialer.value.dialContext(base.addrMetadata).Success? && tlsErr.Some? ==>
        err == Some(ConnectError(base.addr, tlsErr.value))
      ensures base.dialer.value.dialContext(base.addrMetadata).Success? && tlsErr.None? ==>
        err == headerErr
      ensures c != null ==>
        var raw := base.dialer.value.dialContext(base.addrMetadata).value;
        && fresh(c) && c.Chains() == [base.name]
        && c.conn == Some(raw.With(TrojanTLS(InstanceTLS(instance))).With(TrojanHeader(TrojanTCP, SerializeSocksAddr(md))))
    {
      var con := base.dialer.value.dialContext(base.addrMetadata);
      if con.Failure? {
        return null, Some(con.error);
      }
      var s, e := StreamConn(con.value, md, tlsErr, headerErr);
      if e.Some? {
        return null, e;
      }
      c := new ChainConn.NewConn(s, base);
      err := None;
    }

    /** DialUDP: dial the own address through the upstream, the instance's TLS
        client, the header with the UDP command and the serialized destination;
        the datagrams are then framed inside that stream. */
    method DialUDP(md: Metadata, tlsErr: Option<Error>, headerErr: Option<Error>)
      returns (pc: ChainPacketConn?, err: Option<Error>)
      requires base.dialer.Some?
      ensures pc == null <==> err.Some?
      ensures base.dialer.value.dialContext(base.addrMetadata).Failure? ==>
        err == Some(base.dialer.value.dialContext(base.addrMetadata).error)
      ensures base.dialer.value.dialContext(base.addrMetadata).Success? && tlsErr.Some? ==>
        err == Some(ConnectError(base.addr, tlsErr.value))
      ensures base.dialer.value.dialContext(base.addrMetadata).Success? && tlsErr.None? ==>
        err == headerErr
      ensures pc != null ==>
        var raw := base.dialer.value.dialContext(base.addrMetadata).value;
        var stream := raw.With(TrojanTLS(InstanceTLS(instance))).With(TrojanHeader(TrojanUDP, SerializeSocksAddr(md)));
        && fresh(pc) && pc.Chains() == [base.name]
        && pc.pc == Some(NetPacketConn(stream.socket, [TrojanFraming(stream)]))
    {
      var con := base.dialer.value.dialContext(base.addrMetadata);
      if con.Failure? {
        return null, Some(con.error);
      }
      var c := con.value.With(TrojanTLS(InstanceTLS(instance)));
      if tlsErr.Some? {
        return null, Some(ConnectError(base.addr, tlsErr.value));
      }
      c := c.With(TrojanHeader(TrojanUDP, SerializeSocksAddr(md)));
      if headerErr.Some? {
        return null, headerErr;
      }
      pc := new ChainPacketConn.NewPacketConn(Some(NetPacketConn(c.socket, [TrojanFraming(c)])), base);
      err := None;
    }
  }

  /** NewTrojan: always builds the adapter; a failure to read the own address into
      a metadata is returned together with it. */
  method NewTrojan(option: TrojanOption) returns (t: TrojanAdapter, err: Option<Error>)
    ensures fresh(t.base)
    ensures t.base.Name() == option.name && t.base.Addr() == ServerAddress(option.server, option.port)
    ensures t.base.Type() == Trojan && t.base.SupportUDP() == option.udp && t.base.dialer.None?
    ensures t.instance == Instance(option)
    ensures t.base.addrMetadata == MetadataOf(t.base.addr) && err == MetadataError(t.base.addr)
  {
    var b := new Base.NewBase(option.name, ServerAddress(option.server, option.port), Trojan, option.udp, None);
    err := b.SetAddrMetadata();
    t := TrojanAdapter(b, Instance(option));
  }
}
