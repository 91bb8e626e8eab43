/** The SOCKS5 adapter: an optional TLS client, then the SOCKS5 client handshake
    (sections 3 to 6 of RFC 1928) with CONNECT for streams and UDP ASSOCIATE for
    datagrams. The outcomes of the TLS and SOCKS handshakes are parameters. */
module Socks5 {
  import opened Prelude
  import opened Strconv
  import opened Metadata
  import opened Transport
  import opened OutboundBase
  import opened SocksWire

  /** The typed options of a SOCKS5 adapter. */
  datatype Socks5Option = Socks5Option(
    name: string, server: string, port: int, userName: string, password: string,
    tls: bool, udp: bool, skipCertVerify: bool)

  /** The TLS configuration NewSocks5 builds: only when TLS is on, naming the
      server, skipping verification as configured, with the shared session cache. */
  function Socks5TLSConfig(option: Socks5Option): (r: Option<TLSConfig>)
    ensures r.Some? <==> option.tls
    ensures r.Some? ==> r.value.serverName == option.server && r.value.insecureSkipVerify == option.skipCertVerify
    ensures r.Some? ==> r.value.sessionCache && r.value.alpn == []
  {
    if option.tls then Some(TLSConfig(option.server, option.skipCertVerify, true, [])) else None
  }

  /** The credentials handed to the handshake: only with a user name; a password
      without a user name is dropped. */
  function Credentials(user: string, pass: string): (r: Option<User>)
    ensures r.Some? <==> user != ""
    ensures r.Some? ==> r.value.username == user && r.value.password == pass
  {
    if user != "" then Some(User(user, pass)) else None
  }

  datatype Socks5Adapter = Socks5Adapter(
    base: Base, user: string, pass: string, tls: bool, skipCertVerify: bool, tlsConfig: Option<TLSConfig>)
  {
    /** A TLS configuration is there exactly when TLS is on. */
    predicate Valid() {
      tls <==> tlsConfig.Some?
    }

    /** The connection the SOCKS handshake runs over: the TLS client when TLS is on. */
    function Secured(c: NetConn): NetConn
      requires Valid()
    {
      if tls then c.With(TLSClient(tlsConfig.value)) else c
    }

    /** The error StreamConn reports: the TLS handshake's (wrapped with the own
        address) when TLS is on, else the SOCKS handshake's. */
    function StreamConnError(tlsErr: Option<Error>, handshakeErr: Option<Error>): Option<Error>
      reads base
    {
      if tls && tlsErr.Some? then Some(ConnectError(base.addr, tlsErr.value)) else handshakeErr
    }

    /** StreamConn: the TLS handshake when TLS is on, whose failure is reported with
        the adapter's address; then the SOCKS handshake with CONNECT, the
        credentials and the serialized destination, whose failure is passed on. */
    method StreamConn(c: NetConn, md: Metadata, tlsErr: Option<Error>, handshakeErr: Option<Error>)
      returns (r: Option<NetConn>, err: Option<Error>)
      requires Valid()
      ensures r.None? <==> err.Some?
      ensures tls && tlsErr.Some? ==> err == Some(ConnectError(base.addr, tlsErr.value))
      ensures !(tls && tlsErr.Some?) && handshakeErr.Some? ==> err == handshakeErr
      ensures !(tls && tlsErr.Some?) && handshakeErr.None? ==> err.None?
      ensures r.Some? ==> !(tls && tlsErr.Some?) && handshakeErr.None?
      ensures err == StreamConnError(tlsErr, handshakeErr)
      ensures r.Some? ==>
        r.value == Secured(c).With(SocksHandshake(CmdConnect, Credentials(user, pass), SerializeSocksAddr(md)))
      ensures r.Some? && tls ==> r.value.layers[|c.layers|] == TLSClient(tlsConfig.value)
    {
      var cc := c;
      if tls {
        cc := cc.With(TLSClient(tlsConfig.value));
        if tlsErr.Some? {
          return None, Some(ConnectError(base.addr, tlsErr.value));
        }
      }
      var user := Credentials(this.user, pass);
      if handshakeErr.Some? {
        return None, handshakeErr;
      }
      cc := cc.With(SocksHandshake(CmdConnect, user, SerializeSocksAddr(md)));
      return Some(cc), None;
    }

    /** DialContext: dial the adapter's own address through the upstream, then run
        StreamConn on it; either failure gives no connection and its error. */
    method DialContext(md: Metadata, tlsErr: Option<Error>, handshakeErr: Option<Error>)
      returns (c: ChainConn?, err: Option<Error>)
      requires Valid() && base.dialer.Some?
      ensures c == null <==> err.Some?
      ensures base.dialer.value.dialContext(base.addrMetadata).Failure? ==>
        err == Some(base.dialer.value.dialContext(base.addrMetadata).error)
      ensures base.dialer.value.dialContext(base.addrMetadata).Success? ==>
        err == StreamConnError(tlsErr, handshakeErr)
      ensures c != null ==>
        && fresh(c)
        && base.dialer.value.dialContext(base.addrMetadata).Success?
        && c.conn == Some(Secured(base.dialer.value.dialContext(base.addrMetadata).value)
                           .With(SocksHandshake(CmdConnect, Credentials(user, pass), SerializeSocksAddr(md))))
        && c.Chains() == [base.name]
    {
      var con := base.dialer.value.dialContext(base.addrMetadata);
      if con.Failure? {
        return null, Some(con.error);
      }
      var s, e := StreamConn(con.value, md, tlsErr, handshakeErr);
      if e.Some? {
        return null, e;
      }
      c := new ChainConn.NewConn(s, base);
      err := None;
    }

    /** DialUDP: dial the own address through the upstream, put TLS on it when
        configured (the TLS handshake's error is overwritten by the next step and
        so never reported), run the SOCKS handshake with UDP ASSOCIATE, read the
        relay address it returns into a metadata and open a packet connection to it
        through the upstream. The control connection is closed on every failure
        after it was opened. The upstream's packet dial error is not checked: its
        failure leaves the wrapper without a packet connection. */
    method DialUDP(md: Metadata, tlsErr: Option<Error>, bind: Result<seq<byte>>)
      returns (pc: ChainPacketConn?, err: Option<Error>, controlClosed: bool)
      requires Valid() && base.dialer.Some?
      requires bind.Success? ==> IsAddr(bind.value)
      ensures pc == null <==> err.Some?
      ensures base.dialer.value.dialContext(base.addrMetadata).Failure? ==>
        err == Some(base.dialer.value.dialContext(base.addrMetadata).error) && !controlClosed
      ensures base.dialer.value.dialContext(base.addrMetadata).Success? && bind.Failure? ==>
        err == Some(ClientHandshakeError(bind.error)) && controlClosed
      ensures base.dialer.value.dialContext(base.addrMetadata).Success? && bind.Success? ==>
        && (err.Some? <==> NewMetadata(AddrString(bind.value)).Failure?)
        && (err.Some? ==> err == Some(NewMetadata(AddrString(bind.value)).error))
        && controlClosed == err.Some?
      ensures pc != null ==>
        var control := Secured(base.dialer.value.dialContext(base.addrMetadata).value)
                         .With(SocksHandshake(CmdUDPAssociate, Credentials(user, pass), SerializeSocksAddr(md)));
        var relay := base.dialer.value.dialUDP(Some(NewMetadata(AddrString(bind.value)).value));
        && fresh(pc) && pc.Chains() == [base.name]
        && pc.pc == (if relay.Success? then Some(relay.value.With(SocksFraming(AddrUDPAddr(bind.value), control))) else None)
    {
      var con := base.dialer.value.dialContext(base.addrMetadata);
      if con.Failure? {
        return null, Some(con.error), false;
      }
      var c := Secured(con.value);
      var user := Credentials(this.user, pass);
      if bind.Failure? {
        return null, Some(ClientHandshakeError(bind.error)), true;
      }
      c := c.With(SocksHandshake(CmdUDPAssociate, user, SerializeSocksAddr(md)));
      var relayMd := NewMetadata(AddrString(bind.value));
      if relayMd.Failure? {
        return null, Some(relayMd.error), true;
      }
      var relay := base.dialer.value.dialUDP(Some(relayMd.value));
      var inner := if relay.Success? then Some(relay.value.With(SocksFraming(AddrUDPAddr(bind.value), c))) else None;
      pc := new ChainPacketConn.NewPacketConn(inner, base);
      return pc, None, false;
    }
  }

  /** NewSocks5: never fails. The own address is the server and port joined; its
      metadata is kept when it parses and left absent otherwise. */
  method NewSocks5(option: Socks5Option) returns (s: Socks5Adapter)
    ensures fresh(s.base) && s.Valid()
    ensures s.base.Name() == option.name && s.base.Addr() == ServerAddress(option.server, option.port)
    ensures s.base.Type() == Socks5 && s.base.SupportUDP() == option.udp && s.base.dialer.None?
    ensures s.base.addrMetadata == MetadataOf(s.base.addr)
    ensures s.user == option.userName && s.pass == option.password
    ensures s.tls == option.tls && s.skipCertVerify == option.skipCertVerify
    ensures s.tlsConfig == Socks5TLSConfig(option)
  {
    var b := new Base.NewBase(option.name, ServerAddress(option.server, option.port), Socks5, option.udp, None);
    var _ := b.SetAddrMetadata();
    s := Socks5Adapter(b, option.userName, option.password, option.tls, option.skipCertVerify, Socks5TLSConfig(option));
  }
}
