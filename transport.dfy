/** Connections as values. A stream connection is the socket it runs on plus the
    layers stacked on it, innermost first; a packet connection likewise. The layers
    stand for the components outside this model (obfuscators, ciphers, the SSR
    protocol, TLS, the SOCKS and trojan handshakes): the model records which layer
    was applied, with which parameters and in which order, not what it does to the
    bytes. The network itself enters as a value of `Network` and of `Dialer`, whose
    functions give the outcome of each call. */
module Transport {
  import opened Prelude
  import opened NetIP
  import opened Metadata

  /** The v2ray websocket plugin's options as the adapter hands them on. */
  datatype V2rayOption = V2rayOption(
    host: string, path: string, headers: map<string, string>, mux: bool,
    tls: bool, skipCertVerify: bool, sessionCache: bool)

  /** A TLS client configuration. `sessionCache` says whether the shared client
      session cache is attached. */
  datatype TLSConfig = TLSConfig(serverName: string, insecureSkipVerify: bool, sessionCache: bool, alpn: seq<string>)

  /** SOCKS5 username/password credentials. */
  datatype User = User(username: string, password: string)

  /** The SOCKS5 request commands and the trojan header commands the adapters use. */
  datatype Command = CmdConnect | CmdUDPAssociate | TrojanTCP | TrojanUDP

  /** What a Shadowsocks cipher picked by name is: a stream cipher, with its IV
      size and key, or an AEAD cipher. */
  datatype CipherKind = StreamCipher(ivSize: nat, key: seq<byte>) | AEADCipher

  datatype Cipher = Cipher(name: string, kind: CipherKind)

  /** One transformation stacked on a stream connection. */
  datatype Layer =
    | TLSObfs(host: string)                                    // simple-obfs, tls mode
    | HTTPObfs(host: string, port: string)                     // simple-obfs, http mode
    | V2rayObfs(option: V2rayOption)                           // v2ray-plugin, websocket mode
    | CipherStream(cipher: string)                             // the Shadowsocks stream/AEAD cipher
    | SsrObfs(obfs: string)                                    // SSR obfuscation
    | SsrProtocol(protocol: string, iv: seq<byte>)             // SSR protocol keyed with the write IV
    | TLSClient(config: TLSConfig)                             // a TLS client over the stream
    | SocksHandshake(cmd: Command, user: Option<User>, dst: seq<byte>)
    | TrojanTLS(tls: TLSConfig)                                // the trojan instance's TLS client
    | TrojanHeader(cmd: Command, dst: seq<byte>)
    | Written(data: seq<byte>)                                 // bytes written first on the stream

  /** A stream connection: a socket and the layers on it, innermost first. */
  datatype NetConn = NetConn(socket: nat, layers: seq<Layer>)
  {
    /** The connection with one more layer on top. */
    function With(l: Layer): NetConn {
      NetConn(socket, layers + [l])
    }
  }

  /** One transformation stacked on a packet connection. */
  datatype PacketLayer =
    | CipherPacket(cipher: string)                             // Shadowsocks packet cipher
    | ProtocolPacket(protocol: string)                         // SSR protocol packet transform
    | SsFraming(rAddr: UDPAddr)                                // address-prefixed datagrams to rAddr
    | SocksFraming(relay: Option<UDPAddr>, control: NetConn)   // SOCKS UDP requests to the relay
    | TrojanFraming(stream: NetConn)                           // trojan datagrams inside a stream
    | DirectFraming(rAddr: UDPAddr)                            // the direct wrapper, recording rAddr

  /** A packet connection: a socket and the layers on it, innermost first. */
  datatype NetPacketConn = NetPacketConn(socket: nat, layers: seq<PacketLayer>)
  {
    /** The packet connection with one more layer on top. */
    function With(l: PacketLayer): NetPacketConn {
      NetPacketConn(socket, layers + [l])
    }
  }

  /** The operating system's network as the direct adapter sees it: the outcome of
      a TCP dial to an address, of opening an unbound UDP socket, and of resolving a
      UDP address. */
  datatype Network = Network(
    dialTCP: string -> Result<NetConn>,
    listenUDP: Result<NetPacketConn>,
    resolveUDP: string -> Result<UDPAddr>)

  /** The upstream adapter an adapter dials through (its `dialer`): the outcome of
      a stream dial and of a packet dial to a destination. */
  datatype Dialer = Dialer(
    dialContext: Option<Metadata> -> Result<NetConn>,
    dialUDP: Option<Metadata> -> Result<NetPacketConn>)
}
