/** The Shadowsocks adapter: an optional obfuscation plugin (simple-obfs in tls or
    http mode, or the v2ray websocket plugin), then the cipher, then the SOCKS
    address of the destination as the first bytes. The cipher lookup, the plugins
    and the writes are outside the model; their outcomes are parameters. */
module Shadowsocks {
  import opened Prelude
  import opened Strconv
  import opened HostPort
  import opened NetIP
  import opened Metadata
  import opened Transport
  import opened OutboundBase
  import opened SocksWire

  /** The plugin-opts keys the adapter reads, each absent or given. */
  datatype PluginOpts = PluginOpts(
    mode: Option<string>, host: Option<string>, path: Option<string>, tls: Option<bool>,
    headers: Option<map<string, string>>, skipCertVerify: Option<bool>, mux: Option<bool>)

  /** The typed options of a Shadowsocks adapter. */
  datatype ShadowSocksOption = ShadowSocksOption(
    name: string, server: string, port: int, password: string, cipher: string,
    udp: bool, plugin: string, pluginOpts: PluginOpts)

  /** simple-obfs's settings. */
  datatype SimpleObfsOption = SimpleObfsOption(mode: string, host: string)

  /** A given key overrides the default. */
  function OrElse<T>(given: Option<T>, default: T): T {
    if given.Some? then given.value else default
  }

  /** What NewShadowSocks keeps besides the shared state. */
  datatype ShadowSocksConfig = ShadowSocksConfig(
    cipher: Cipher, obfsMode: string, obfsOption: Option<SimpleObfsOption>, v2rayOption: Option<V2rayOption>)
  {
    /** The obfuscation mode and the options are consistent: simple-obfs options
        exactly for tls and http, v2ray options exactly for websocket, none else. */
    predicate Valid() {
      && (obfsMode == "" || obfsMode == "tls" || obfsMode == "http" || obfsMode == "websocket")
      && (obfsOption.Some? <==> obfsMode == "tls" || obfsMode == "http")
      && (v2rayOption.Some? <==> obfsMode == "websocket")
      && (obfsOption.Some? ==> obfsOption.value.mode == obfsMode)
    }
  }

  /** The validation cascade of NewShadowSocks: pick the cipher, then check the
      plugin. Cipher lookup is `pickCipher(name, password)`. */
  function ConfigureShadowSocks(option: ShadowSocksOption, pickCipher: (string, string) -> Result<Cipher>): (r: Result<ShadowSocksConfig>)
    ensures pickCipher(option.cipher, option.password).Failure? ==>
      r == Failure(InitError("ss", ServerAddress(option.server, option.port), pickCipher(option.cipher, option.password).error))
    ensures r.Success? ==> r.value.Valid() && r.value.cipher == pickCipher(option.cipher, option.password).value
    ensures r.Success? && option.plugin != "obfs" && option.plugin != "v2ray-plugin" ==>
      r.value.obfsMode == "" && r.value.obfsOption.None? && r.value.v2rayOption.None?
    ensures pickCipher(option.cipher, option.password).Success? && option.plugin == "obfs" ==>
      var mode := OrElse(option.pluginOpts.mode, "");
      && (r.Failure? <==> mode != "tls" && mode != "http")
      && (r.Failure? ==> r.error == ObfsModeError(ServerAddress(option.server, option.port), mode))
      && (r.Success? ==> r.value.obfsOption == Some(SimpleObfsOption(mode, OrElse(option.pluginOpts.host, "bing.com"))))
    ensures pickCipher(option.cipher, option.password).Success? && option.plugin == "v2ray-plugin" ==>
      var mode := OrElse(option.pluginOpts.mode, "");
      && (r.Failure? <==> mode != "websocket")
      && (r.Failure? ==> r.error == ObfsModeError(ServerAddress(option.server, option.port), mode))
      && (r.Success? ==> r.value.v2rayOption.Some?)
      && (r.Success? ==>
            var v := r.value.v2rayOption.value;
            && v.host == OrElse(option.pluginOpts.host, "bing.com")
            && v.path == OrElse(option.pluginOpts.path, "")
            && v.headers == OrElse(option.pluginOpts.headers, map[])
            && v.mux == OrElse(option.pluginOpts.mux, true)
            && (v.tls || v.skipCertVerify || v.sessionCache ==> OrElse(option.pluginOpts.tls, false))
            && (OrElse(option.pluginOpts.tls, false) ==>
                  v.tls && v.sessionCache && v.skipCertVerify == OrElse(option.pluginOpts.skipCertVerify, false)))
  {
    var addr := ServerAddress(option.server, option.port);
    match pickCipher(option.cipher, option.password)
    case Failure(e) => Failure(InitError("ss", addr, e))
    case Success(ciph) =>
      var opts := option.pluginOpts;
      if option.plugin == "obfs" then
        var o := SimpleObfsOption(OrElse(opts.mode, ""), OrElse(opts.host, "bing.com"));
        if o.mode != "tls" && o.mode != "http" then Failure(ObfsModeError(addr, o.mode))
        else Success(ShadowSocksConfig(ciph, o.mode, Some(o), None))
      else if option.plugin == "v2ray-plugin" then
        var mode := OrElse(opts.mode, "");
        if mode != "websocket" then Failure(ObfsModeError(addr, mode))
        else
          var v := V2rayOption(OrElse(opts.host, "bing.com"), OrElse(opts.path, ""), OrElse(opts.headers, map[]),
                               OrElse(opts.mux, true), false, false, false);
          var v' := if OrElse(opts.tls, false)
                    then v.(tls := true, skipCertVerify := OrElse(opts.skipCertVerify, false), sessionCache := true)
                    else v;
          Success(ShadowSocksConfig(ciph, mode, None, Some(v')))
      else Success(ShadowSocksConfig(ciph, "", None, None))
  }

  /** An unknown or empty plugin name is no obfuscation and no error. */
  lemma NoPluginNoObfs(option: ShadowSocksOption, pickCipher: (string, string) -> Result<Cipher>)
    requires option.plugin != "obfs" && option.plugin != "v2ray-plugin"
    ensures ConfigureShadowSocks(option, pickCipher).Success? <==> pickCipher(option.cipher, option.password).Success?
  {
  }

  /** The port the HTTP obfuscator is given, split back out of the own address,
      is the configured port's decimal text. */
  lemma HTTPObfsPort(server: string, port: int)
    requires '[' !in server && ']' !in server
    ensures SplitHostPort(ServerAddress(server, port)).Success?
    ensures SplitHostPort(ServerAddress(server, port)).value.1 == Itoa(port)
  {
    ItoaHasNoColonOrBracket(port);
    SplitJoin(server, Itoa(port));
  }

  /** The port of `addr`, or "" when it does not split (the split error is ignored). */
  function PortOf(addr: string): string {
    match SplitHostPort(addr)
    case Success((_, port)) => port
    case Failure(_) => ""
  }

  datatype ShadowSocksAdapter = ShadowSocksAdapter(base: Base, config: ShadowSocksConfig)
  {
    /** The obfuscation layer the mode selects, if any; the websocket layer is
        present only when the plugin set-up succeeded. */
    function ObfsLayers(addr: string): seq<Layer>
      requires config.Valid()
    {
      match config.obfsMode
      case "tls" => [TLSObfs(config.obfsOption.value.host)]
      case "http" => [HTTPObfs(config.obfsOption.value.host, PortOf(addr))]
      case "websocket" => [V2rayObfs(config.v2rayOption.value)]
      case _ => []
    }

    /** StreamConn: the obfuscation the mode selects (the websocket plugin may fail,
        reported with the adapter's address), then the cipher, then the serialized
        destination written as the first bytes. The connection is returned together
        with the write's error. */
    method StreamConn(c: NetConn, md: Metadata, v2rayErr: Option<Error>, writeErr: Option<Error>)
      returns (r: Option<NetConn>, err: Option<Error>)
      requires config.Valid()
      ensures config.obfsMode == "websocket" && v2rayErr.Some? ==>
        r.None? && err == Some(ConnectError(base.addr, v2rayErr.value))
      ensures !(config.obfsMode == "websocket" && v2rayErr.Some?) ==>
        && err == writeErr
        && r == Some(NetConn(c.socket, c.layers + ObfsLayers(base.addr)
                               + [CipherStream(config.cipher.name), Written(SerializeSocksAddr(md))]))
    {
      var cc := c;
      match config.obfsMode {
        case "tls" =>
          cc := cc.With(TLSObfs(config.obfsOption.value.host));
        case "http" =>
          var port := PortOf(base.addr);
          cc := cc.With(HTTPObfs(config.obfsOption.value.host, port));
        case "websocket" =>
          if v2rayErr.Some? {
            return None, Some(ConnectError(base.addr, v2rayErr.value));
          }
          cc := cc.With(V2rayObfs(config.v2rayOption.value));
        case _ =>
      }
      assert cc == NetConn(c.socket, c.layers + ObfsLayers(base.addr));
      cc := cc.With(CipherStream(config.cipher.name));
      cc := cc.With(Written(SerializeSocksAddr(md)));
      ghost var tail := [CipherStream(config.cipher.name), Written(SerializeSocksAddr(md))];
      assert cc.layers == c.layers + ObfsLayers(base.addr) + tail;
      return Some(cc), writeErr;
    }

    /** DialContext: dial the own address through the upstream; then StreamConn,
        whose outcome is wrapped whatever it is, error included. */
    method DialContext(md: Metadata, v2rayErr: Option<Error>, writeErr: Option<Error>)
      returns (c: ChainConn?, err: Option<Error>)
      requires config.Valid() && base.dialer.Some?
      ensures base.dialer.value.dialContext(base.addrMetadata).Failure? ==>
        c == null && err == Some(base.dialer.value.dialContext(base.addrMetadata).error)
      ensures base.dialer.value.dialContext(base.addrMetadata).Success? ==>
        && c != null && fresh(c) && c.Chains() == [base.name]
        && (config.obfsMode == "websocket" && v2rayErr.Some? ==>
              c.conn.None? && err == Some(ConnectError(base.addr, v2rayErr.value)))
        && (!(config.obfsMode == "websocket" && v2rayErr.Some?) ==>
              var raw := base.dialer.value.dialContext(base.addrMetadata).value;
              && err == writeErr
              && c.conn == Some(NetConn(raw.socket, raw.layers + ObfsLayers(base.addr)
                                          + [CipherStream(config.cipher.name), Written(SerializeSocksAddr(md))])))
    {
      var con := base.dialer.value.dialContext(base.addrMetadata);
      if con.Failure? {
        return null, Some(con.error);
      }
      var s, e := StreamConn(con.value, md, v2rayErr, writeErr);
      c := new ChainConn.NewConn(s, base);
      err := e;
    }

    /** DialUDP: a packet connection to the own address through the upstream, the
        cipher on it, and datagrams framed with the destination's address and sent
        to the own address resolved. */
    method DialUDP(md: Metadata, resolveUDP: string -> Result<UDPAddr>)
      returns (pc: ChainPacketConn?, err: Option<Error>)
      requires base.dialer.Some?
      ensures pc == null <==> err.Some?
      ensures base.dialer.value.dialUDP(base.addrMetadata).Failure? ==>
        err == Some(base.dialer.value.dialUDP(base.addrMetadata).error)
      ensures base.dialer.value.dialUDP(base.addrMetadata).Success? && resolveUDP(base.addr).Failure? ==>
        err == Some(resolveUDP(base.addr).error)
      ensures base.dialer.value.dialUDP(base.addrMetadata).Success? && resolveUDP(base.addr).Success? ==>
        pc != null && err.None?
      ensures pc != null ==>
        && fresh(pc) && pc.Chains() == [base.name]
        && base.dialer.value.dialUDP(base.addrMetadata).Success? && resolveUDP(base.addr).Success?
        && pc.pc == Some(base.dialer.value.dialUDP(base.addrMetadata).value
                           .With(CipherPacket(config.cipher.name)).With(SsFraming(resolveUDP(base.addr).value)))
    {
      var pk := base.dialer.value.dialUDP(base.addrMetadata);
      if pk.Failure? {
        return null, Some(pk.error);
      }
      var addr := resolveUDP(base.addr);
      if addr.Failure? {
        return null, Some(addr.error);
      }
      var p := pk.value.With(CipherPacket(config.cipher.name));
      pc := new ChainPacketConn.NewPacketConn(Some(p.With(SsFraming(addr.value))), base);
      err := None;
    }
  }

  /** NewShadowSocks: the validation cascade, then the shared state. A failure to
      read the own address into a metadata is returned together with the adapter. */
  method NewShadowSocks(option: ShadowSocksOption, pickCipher: (string, string) -> Result<Cipher>)
    returns (ss: Option<ShadowSocksAdapter>, err: Option<Error>)
    ensures ConfigureShadowSocks(option, pickCipher).Failure? ==>
      ss.None? && err == Some(ConfigureShadowSocks(option, pickCipher).error)
    ensures ConfigureShadowSocks(option, pickCipher).Success? ==>
      && ss.Some? && fresh(ss.value.base)
      && ss.value.config == ConfigureShadowSocks(option, pickCipher).value
      && ss.value.base.Name() == option.name && ss.value.base.Addr() == ServerAddress(option.server, option.port)
      && ss.value.base.Type() == Shadowsocks && ss.value.base.SupportUDP() == option.udp
      && ss.value.base.dialer.None?
      && ss.value.base.addrMetadata == MetadataOf(ss.value.base.addr)
      && err == MetadataError(ss.value.base.addr)
  {
    var config := ConfigureShadowSocks(option, pickCipher);
    if config.Failure? {
      return None, Some(config.error);
    }
    var b := new Base.NewBase(option.name, ServerAddress(option.server, option.port), Shadowsocks, option.udp, None);
    err := b.SetAddrMetadata();
    ss := Some(ShadowSocksAdapter(b, config.value));
  }
}
