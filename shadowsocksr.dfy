/** The ShadowsocksR adapter: a stream cipher with an SSR obfuscation below it and
    an SSR protocol above it, keyed with the cipher's write IV. The cipher, obfs and
    protocol lookups and their algorithms are outside the model; their outcomes are
    parameters. */
module ShadowsocksR {
  import opened Prelude
  import opened NetIP
  import opened Metadata
  import opened Transport
  import opened OutboundBase
  import opened SocksWire

  /** The typed options of a ShadowsocksR adapter. */
  datatype ShadowSocksROption = ShadowSocksROption(
    name: string, server: string, port: int, password: string, cipher: string,
    obfs: string, obfsParam: string, protocol: string, protocolParam: string, udp: bool)

  /** The settings an obfuscation is picked with. */
  datatype ObfsBase = ObfsBase(ivSize: nat, key: seq<byte>, headLen: nat, host: string, port: int, param: string)

  /** The settings a protocol is picked with. */
  datatype ProtocolBase = ProtocolBase(iv: Option<seq<byte>>, key: seq<byte>, tcpMss: nat, param: string)

  /** A picked obfuscation and the overhead it adds. */
  datatype Obfs = Obfs(name: string, overhead: int)

  /** A picked protocol: the overhead it adds itself, and the overhead recorded
      on it for the whole stack. */
  datatype Protocol = Protocol(name: string, protocolOverhead: int, overhead: int)

  /** What NewShadowSocksR keeps besides the shared state. */
  datatype ShadowSocksRConfig = ShadowSocksRConfig(cipher: Cipher, obfs: Obfs, protocol: Protocol)

  /** The validation chain of NewShadowSocksR: pick the cipher, insist on a stream
      cipher, pick the obfuscation and the protocol with their fixed settings, and
      record the summed overhead on the protocol. */
  function ConfigureShadowSocksR(
    option: ShadowSocksROption,
    pickCipher: (string, string) -> Result<Cipher>,
    pickObfs: (string, ObfsBase) -> Result<Obfs>,
    pickProtocol: (string, ProtocolBase) -> Result<Protocol>): (r: Result<ShadowSocksRConfig>)
    ensures pickCipher(option.cipher, option.password).Failure? ==>
      r == Failure(InitError("ssr cipher", ServerAddress(option.server, option.port), pickCipher(option.cipher, option.password).error))
    ensures pickCipher(option.cipher, option.password).Success? && !pickCipher(option.cipher, option.password).value.kind.StreamCipher? ==>
      r == Failure(UnsupportedStreamCipher(option.cipher))
    ensures pickCipher(option.cipher, option.password).Success? && pickCipher(option.cipher, option.password).value.kind.StreamCipher? ==>
      var ciph := pickCipher(option.cipher, option.password).value;
      var addr := ServerAddress(option.server, option.port);
      var obfs := pickObfs(option.obfs, ObfsBase(ciph.kind.ivSize, ciph.kind.key, 30, option.server, option.port, option.obfsParam));
      var protocol := pickProtocol(option.protocol, ProtocolBase(None, ciph.kind.key, 1460, option.protocolParam));
      && (obfs.Failure? ==> r == Failure(InitError("ssr obfs", addr, obfs.error)))
      && (obfs.Success? && protocol.Failure? ==> r == Failure(InitError("ssr protocol", addr, protocol.error)))
      && (obfs.Success? && protocol.Success? ==> r.Success?)
    ensures r.Success? ==>
      var ciph := pickCipher(option.cipher, option.password).value;
      var obfsBase := ObfsBase(ciph.kind.ivSize, ciph.kind.key, 30, option.server, option.port, option.obfsParam);
      var protocolBase := ProtocolBase(None, ciph.kind.key, 1460, option.protocolParam);
      && ciph.kind.StreamCipher?
      && r.value.cipher == ciph
      && pickObfs(option.obfs, obfsBase) == Success(r.value.obfs)
      && pickProtocol(option.protocol, protocolBase).Success?
      && r.value.protocol == pickProtocol(option.protocol, protocolBase).value.(overhead := r.value.obfs.overhead + r.value.protocol.protocolOverhead)
    ensures r.Success? ==> r.value.protocol.overhead == r.value.obfs.overhead + r.value.protocol.protocolOverhead
  {
    var addr := ServerAddress(option.server, option.port);
    match pickCipher(option.cipher, option.password)
    case Failure(e) => Failure(InitError("ssr cipher", addr, e))
    case Success(ciph) =>
      if !ciph.kind.StreamCipher? then Failure(UnsupportedStreamCipher(option.cipher))
      else
        match pickObfs(option.obfs, ObfsBase(ciph.kind.ivSize, ciph.kind.key, 30, option.server, option.port, option.obfsParam))
        case Failure(e) => Failure(InitError("ssr obfs", addr, e))
        case Success(obfs) =>
          match pickProtocol(option.protocol, ProtocolBase(None, ciph.kind.key, 1460, option.protocolParam))
          case Failure(e) => Failure(InitError("ssr protocol", addr, e))
          case Success(protocol) =>
            Success(ShadowSocksRConfig(ciph, obfs, protocol.(overhead := obfs.overhead + protocol.protocolOverhead)))
  }

  /** An AEAD cipher is refused, whatever the obfuscation and protocol. */
  lemma AEADRefused(
    option: ShadowSocksROption,
    pickCipher: (string, string) -> Result<Cipher>,
    pickObfs: (string, ObfsBase) -> Result<Obfs>,
    pickProtocol: (string, ProtocolBase) -> Result<Protocol>)
    requires pickCipher(option.cipher, option.password).Success?
    requires pickCipher(option.cipher, option.password).value.kind == AEADCipher
    ensures ConfigureShadowSocksR(option, pickCipher, pickObfs, pickProtocol).Failure?
  {
  }

  datatype ShadowSocksRAdapter = ShadowSocksRAdapter(base: Base, config: ShadowSocksRConfig)
  {
    /** StreamConn: the obfuscation, then the cipher; the cipher's connection must
        be a shadowstream connection, whose write IV keys the protocol on top; then
        the serialized destination written as the first bytes. The connection is
        returned together with the write's error. */
    method StreamConn(c: NetConn, md: Metadata, isShadowstream: bool, writeIV: Result<seq<byte>>, writeErr: Option<Error>)
      returns (r: Option<NetConn>, err: Option<Error>)
      ensures !isShadowstream ==> r.None? && err == Some(InvalidConnectionType)
      ensures isShadowstream && writeIV.Failure? ==> r.None? && err == Some(writeIV.error)
      ensures isShadowstream && writeIV.Success? ==>
        && err == writeErr
        && r == Some(NetConn(c.socket, c.layers + [
              SsrObfs(config.obfs.name),
              CipherStream(config.cipher.name),
              SsrProtocol(config.protocol.name, writeIV.value),
              Written(SerializeSocksAddr(md))]))
    {
      var cc := c.With(SsrObfs(config.obfs.name));
      cc := cc.With(CipherStream(config.cipher.name));
      if !isShadowstream {
        return None, Some(InvalidConnectionType);
      }
      if writeIV.Failure? {
        return None, Some(writeIV.error);
      }
      cc := cc.With(SsrProtocol(config.protocol.name, writeIV.value));
      cc := cc.With(Written(SerializeSocksAddr(md)));
      assert cc.layers == c.layers + [
        SsrObfs(config.obfs.name), CipherStream(config.cipher.name),
        SsrProtocol(config.protocol.name, writeIV.value), Written(SerializeSocksAddr(md))];
      return Some(cc), writeErr;
    }

    /** DialContext: dial the own address through the upstream; then StreamConn,
        whose outcome is wrapped whatever it is, error included. */
    method DialContext(md: Metadata, isShadowstream: bool, writeIV: Result<seq<byte>>, writeErr: Option<Error>)
      returns (c: ChainConn?, err: Option<Error>)
      requires base.dialer.Some?
      ensures base.dialer.value.dialContext(base.addrMetadata).Failure? ==>
        c == null && err == Some(base.dialer.value.dialContext(base.addrMetadata).error)
      ensures base.dialer.value.dialContext(base.addrMetadata).Success? ==>
        && c != null && fresh(c) && c.Chains() == [base.name]
        && (c.conn.None? <==> !isShadowstream || writeIV.Failure?)
        && (!isShadowstream ==> err == Some(InvalidConnectionType))
        && (isShadowstream && writeIV.Failure? ==> err == Some(writeIV.error))
        && (c.conn.Some? ==>
              var raw := base.dialer.value.dialContext(base.addrMetadata).value;
              && err == writeErr
              && c.conn.value == NetConn(raw.socket, raw.layers + [
                   SsrObfs(config.obfs.name),
                   CipherStream(config.cipher.name),
                   SsrProtocol(config.protocol.name, writeIV.value),
                   Written(SerializeSocksAddr(md))]))
    {
      var con := base.dialer.value.dialContext(base.addrMetadata);
      if con.Failure? {
        return null, Some(con.error);
      }
      var s, e := StreamConn(con.value, md, isShadowstream, writeIV, writeErr);
      c := new ChainConn.NewConn(s, base);
      err := e;
    }

    /** DialUDP: a packet connection to the own address through the upstream, the
        cipher's packet transform, then the protocol's, then datagrams framed with
        the destination's address and sent to the own address resolved. */
    method DialUDP(md: Metadata, resolveUDP: string -> Result<UDPAddr>)
      returns (pc: ChainPacketConn?, err: Option<Error>)
      requires base.dialer.Some?
      ensures pc == null <==> err.Some?
      ensures base.dialer.value.dialUDP(base.addrMetadata).Failure? ==>
        err == Some(base.dialer.value.dialUDP(base.addrMetadata).error)
      ensures base.dialer.value.dialUDP(base.addrMetadata).Success? && resolveUDP(base.addr).Failure? ==>
        err == Some(resolveUDP(base.addr).error)
      ensures base.dialer.value.dialUDP(base.addrMetadata).Success? && resolveUDP(base.addr).Success? ==>
        pc != null && err.None?
      ensures pc != null ==>
        && fresh(pc) && pc.Chains() == [base.name]
        && base.dialer.value.dialUDP(base.addrMetadata).Success? && resolveUDP(base.addr).Success?
        && pc.pc == Some(NetPacketConn(base.dialer.value.dialUDP(base.addrMetadata).value.socket,
                                       base.dialer.value.dialUDP(base.addrMetadata).value.layers + [
                                         CipherPacket(config.cipher.name),
                                         ProtocolPacket(config.protocol.name),
                                         SsFraming(resolveUDP(base.addr).value)]))
    {
      var pk := base.dialer.value.dialUDP(base.addrMetadata);
      if pk.Failure? {
        return null, Some(pk.error);
      }
      var addr := resolveUDP(base.addr);
      if addr.Failure? {
        return null, Some(addr.error);
      }
      var p := pk.value.With(CipherPacket(config.cipher.name));
      p := p.With(ProtocolPacket(config.protocol.name));
      p := p.With(SsFraming(addr.value));
      assert p.layers == pk.value.layers + [
        CipherPacket(config.cipher.name), ProtocolPacket(config.protocol.name), SsFraming(addr.value)];
      pc :=new ChainPacketConn.NewPacketConn(Some(p), base);
      err := None;
    }
  }

  /** NewShadowSocksR: the validation chain, then the shared state. A failure to
      read the own address into a metadata is returned together with the adapter. */
  method NewShadowSocksR(
    option: ShadowSocksROption,
    pickCipher: (string, string) -> Result<Cipher>,
    pickObfs: (string, ObfsBase) -> Result<Obfs>,
    pickProtocol: (string, ProtocolBase) -> Result<Protocol>)
    returns (ssr: Option<ShadowSocksRAdapter>, err: Option<Error>)
    ensures ConfigureShadowSocksR(option, pickCipher, pickObfs, pickProtocol).Failure? ==>
      ssr.None? && err == Some(ConfigureShadowSocksR(option, pickCipher, pickObfs, pickProtocol).error)
    ensures ConfigureShadowSocksR(option, pickCipher, pickObfs, pickProtocol).Success? ==>
      && ssr.Some? && fresh(ssr.value.base)
      && ssr.value.config == ConfigureShadowSocksR(option, pickCipher, pickObfs, pickProtocol).value
      && ssr.value.base.Name() == option.name && ssr.value.base.Addr() == ServerAddress(option.server, option.port)
      && ssr.value.base.Type() == ShadowsocksR && ssr.value.base.SupportUDP() == option.udp
      && ssr.value.base.dialer.None?
      && ssr.value.base.addrMetadata == MetadataOf(ssr.value.base.addr)
      && err == MetadataError(ssr.value.base.addr)
  {
    var config := ConfigureShadowSocksR(option, pickCipher, pickObfs, pickProtocol);
    if config.Failure? {
      return None, Some(config.error);
    }
    var b := new Base.NewBase(option.name, ServerAddress(option.server, option.port), ShadowsocksR, option.udp, None);
    err := b.SetAddrMetadata();
    ssr := Some(ShadowSocksRAdapter(b, config.value));
  }
}
