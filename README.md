# Outbound adapters of bridge, modelled in Dafny

This project models the deterministic core of the outbound adapters of `bridge`, a Go proxy
client. That core is the connection metadata (`constant/metadata.go`) and the five adapters
with their shared base (`adapter/outbound/{base,direct,shadowsocks,shadowsocksr,socks5,trojan}.go`).
The project proves properties of the model. It covers:

- **Metadata.** `NewMetadata` splits `host:port` the way Go's `net.SplitHostPort` does. It
  classifies the host with `net.ParseIP` and `IP.To4`, and renders the result back with
  `String` and `RemoteAddress`. The `TCP`/`UDP` constants follow Go's `iota` rule: they sit in
  the same block as the address types, so `TCP` is 3 and `UDP` is 4.
- **The shared base** (class `OutboundBase.Base`). It covers the getters, `SetDialer`, the
  "no support" defaults and the chain wrappers (classes `ChainConn` and `ChainPacketConn`).
  It also covers the resolve-and-rewrite step of `URLTest` (class `Destination`) and
  `URLTest`'s error paths.
- **Adapter construction as validation.** For Shadowsocks this means the plugin modes and
  defaults. For ShadowsocksR it means the stream-cipher rule, the obfs and protocol
  parameters and the overhead sum. For SOCKS5 it means when a TLS configuration exists. For
  trojan it means the SNI override. The Direct adapter is a literal.
- **Layering.** A connection is a value: a socket number plus the list of layers stacked on
  it, innermost first. For every adapter, the contracts of `StreamConn`, `DialContext` and
  `DialUDP` give the exact layer sequence of each connection they return. They also say when
  each call succeeds and which error each failure returns.
- **Datagram framing.** The Shadowsocks and SOCKS5 packet connections build the SOCKS UDP
  request on `WriteTo`. On `ReadFrom` they strip it in place in the caller's buffer, which is
  a Dafny `array`. Each `ReadFrom` method is proved against a specification function, and
  round-trip lemmas connect what `WriteTo` sends with what `ReadFrom` gives back.

The SOCKS helpers the adapters call come from a component that is not part of this model:
`SplitAddr`, `EncodeUDPPacket`, `DecodeUDPPacket`, `ParseAddrToSocksAddr` and the adapters'
`serializesSocksAddr`. Module `SocksWire` defines them as assumed helpers. It follows the
address encoding of section 5 of RFC 1928 (ATYP 1, 3 or 4, a length-prefixed domain, a
big-endian port) and the UDP request header of its section 7 (RSV RSV FRAG). The Go standard
library functions the core depends on are written out in `Strconv`, `NetIP` and `HostPort`:
`strconv.Itoa`, `strconv.Atoi`, `net.ParseIP`, `IP.To4`, `IP.String`, `net.SplitHostPort`
and `net.JoinHostPort`.

Everything outside the process is a parameter. This includes the network (`Transport.Network`,
`Transport.Dialer`), the cipher/obfs/protocol pickers, and the outcome of each TLS handshake,
SOCKS handshake and header write (`Option<Error>` arguments). It also includes the bytes the
underlying packet connection delivers and the HTTP exchange of the latency test.

Some behaviour is modelled as the code does it, not as the adapters' design suggests:

- `NewConn` and `newPacketConn` start a fresh one-entry chain with the adapter's own name.
  They do not carry over the chain of the connection they wrap, so a connection dialled
  through A over B carries `[A]`.
- `NewMetadata` leaves the address type of a host name at 0, not at `ATypDomainName`. The
  serializer therefore writes no address at all for such a metadata
  (`SocksWire.SerializeNewMetadataDomain`).
- In the SOCKS5 `DialUDP`, the TLS handshake's error is overwritten by the SOCKS handshake
  before anyone checks it. The upstream's packet-dial error is overwritten by the final
  `nil`. The wrapper is then handed out without a packet connection.
- ShadowsocksR's `DialContext` wraps the outcome of `StreamConn` even when it failed. The
  Shadowsocks `DialContext` does the same.

## Model

| member | source | states |
|---|---|---|
| Metadata.NetWorkString | constant/metadata.go:10-26 | TCP is 3 and UDP is 4 (iota placement). The text is "tcp" exactly for TCP and "udp" for every other value, the zero value included. |
| Metadata.Metadata.String | constant/metadata.go:64-72 | The host when non-empty, else the IP's text, else "<nil>" when nothing is known. |
| Metadata.Metadata.UDPAddr | constant/metadata.go:53-62 | Present exactly for a resolved UDP destination. Its IP is the destination IP and its port is Atoi of the port text with the error dropped. That is 0 for an empty or non-numeric text, and the int64 bound of the sign when the leading digits pass the uint64 range, even if a non-digit follows. |
| Metadata.RemoteAddressSplits | constant/metadata.go:41-43 | Splitting RemoteAddress gives String() and the port text back when neither holds a bracket and the port holds no colon. |
| Metadata.NewMetadata | constant/metadata.go:78-99 | Fails exactly when host:port splitting fails, with its error. The port text is kept verbatim and the network stays 0. Valid iff the host part is non-empty. Resolved iff the host parses as an IP, stored in its 4-byte form with type IPv4 when it has one, else with type IPv6. A non-IP host is stored as the name, with type 0. |
| Metadata.EmptyHostNotValid | constant/metadata.go:74-86 | ":port" parses, but the metadata is not Valid. |
| Metadata.RemoteAddressOfDomain | constant/metadata.go:78-98 | For a host name that is not an IP, RemoteAddress of NewMetadata(host:port) is host:port again. |
| Metadata.NewMetadataOfIPv4 | constant/metadata.go:84-97 | A dotted-quad host becomes exactly the metadata with that 4-byte IP, type IPv4, no host name and the port text. |
| Metadata.RemoteAddressOfIPv4 | constant/metadata.go:78-98 | For a canonical dotted-quad host, RemoteAddress of NewMetadata(ip:port) is ip:port again. |
| Metadata.ResolverMetadata | adapter/outbound/base.go:124-141 | The resolver's destination is a UDP metadata whose UDP endpoint is 8.8.8.8 port 53, with type IPv4. |
| Strconv.AtoiItoa | constant/metadata.go:57 | Atoi reads back every int64 that Itoa writes, so an adapter's port survives its own address's metadata. |
| Strconv.AtoiRangeBeforeSyntax | constant/metadata.go:57 | A port text whose leading digits pass the uint64 range reads as the int64 bound of its sign, even when a non-digit follows them. |
| NetIP.DottedQuadRoundTrip | constant/metadata.go:84-91 | ParseIP of a dotted quad is that IPv4 address in 16-byte form, To4 recovers the four bytes, and IP.String prints the dotted quad again. |
| HostPort.SplitJoin | constant/metadata.go:80 | SplitHostPort(JoinHostPort(h, p)) == (h, p) for any host without brackets and any port without colon or brackets. |
| OutboundBase.ServerAddressMetadata | adapter/outbound/socks5.go:144-155 | An adapter's own address parses whenever the server holds no bracket. Its port text is Itoa(port) and reads back as the port. It is Valid iff the server is non-empty, and a non-IP server is kept as the host. |
| OutboundBase.MetadataOf | adapter/outbound/trojan.go:105 | Present exactly when NewMetadata succeeds, holding its metadata. |
| OutboundBase.MetadataError | adapter/outbound/trojan.go:105 | Absent exactly when NewMetadata succeeds, otherwise its error. |
| OutboundBase.Base.SetAddrMetadata | adapter/outbound/trojan.go:104-107 | `addrMetadata, err = NewMetadata(addr)`: only addrMetadata changes, to the parsed metadata or to none, and the error is returned. |
| OutboundBase.Base.NewBase | adapter/outbound/base.go:62-64 | The getters return the given name, address, kind and UDP flag. The dialer is the given one and there is no metadata yet. |
| OutboundBase.Base.SetDialer | adapter/outbound/base.go:58-60 | The dialer becomes the given one and every other field is unchanged. |
| OutboundBase.Base.StreamConn | adapter/outbound/base.go:36-38 | Always the input connection together with a "no support" error. |
| OutboundBase.Base.DialUDP | adapter/outbound/base.go:40-42 | Always no packet connection and a "no support" error. |
| OutboundBase.ChainConn.NewConn | adapter/outbound/base.go:79-81 | Wraps the connection with the chain [adapter name] exactly. |
| OutboundBase.ChainConn.AppendToChains | adapter/outbound/base.go:75-77 | The chain grows by exactly one name at the end and every earlier entry is kept. |
| OutboundBase.ChainPacketConn.NewPacketConn | adapter/outbound/base.go:96-98 | Wraps the packet connection with the chain [adapter name] exactly. |
| OutboundBase.ChainPacketConn.AppendToChains | adapter/outbound/base.go:92-94 | The chain grows by exactly one name at the end and every earlier entry is kept. |
| OutboundBase.ResolveStep | adapter/outbound/base.go:151-169 | Fails iff resolution is asked for on an unresolved destination and the lookup fails or is empty; each failure has its own error. Otherwise nothing changes unless it resolves. Resolving sets the IP to the first answer, clears the host and sets the type to IPv4 iff the IP has 4 bytes, else IPv6. The port and network are kept. |
| OutboundBase.ResolveStepIdempotent | adapter/outbound/base.go:151-169 | Running the step again on its result changes nothing, whatever the second lookup would answer. |
| OutboundBase.Destination.Resolve | adapter/outbound/base.go:151-169 | The in-place rewrite leaves exactly ResolveStep's result, or the old metadata together with ResolveStep's error. |
| OutboundBase.URLTest | adapter/outbound/base.go:115-209 | Every failure gives body "" and latency 0. It succeeds iff the URL, the request, the resolve-then-dial, the exchange and the body read all succeed; the body is then returned and the latency is the elapsed milliseconds truncated to uint16. |
| Direct.DirectAdapter.StreamConn | adapter/outbound/direct.go:18-20 | The input connection, unchanged, with no error. |
| Direct.DirectAdapter.DialContext | adapter/outbound/direct.go:22-30 | Dials the destination's own RemoteAddress. A failure is wrapped with the adapter's address. A success carries the chain [name]. |
| Direct.DirectAdapter.DialUDP | adapter/outbound/direct.go:32-44 | Opens an unbound UDP socket and wraps it together with the resolved RemoteAddress of the destination, which the wrapper records. Each failure is passed on. |
| Direct.NewDirect | adapter/outbound/direct.go:46-52 | Never fails. Empty name and address, kind tag Shadowsocks, no UDP support, no dialer, no metadata. |
| Direct.DialDirect | adapter/outbound/direct.go:22-52 | A connection made by the direct adapter carries the chain [""], and there is one exactly when the TCP dial succeeds. |
| Socks5.Socks5TLSConfig | adapter/outbound/socks5.go:132-139 | A TLS config exists iff TLS is on. It names the server, skips verification as configured and uses the session cache. |
| Socks5.Credentials | adapter/outbound/socks5.go:47-53 | Credentials exist iff the user name is non-empty, so a password alone is dropped. |
| Socks5.Socks5Adapter.StreamConn | adapter/outbound/socks5.go:37-58 | TLS (when on) comes before the SOCKS handshake with CONNECT, the credentials and the serialized destination. A TLS failure is wrapped with the adapter's address and a handshake failure is passed on. It succeeds exactly when both handshakes succeed, and exactly one of connection and error is returned. |
| Socks5.Socks5Adapter.DialContext | adapter/outbound/socks5.go:60-71 | The upstream dial's error, or else exactly StreamConn's error. There is a connection exactly when there is no error, and it is the StreamConn stack with the chain [name]. |
| Socks5.Socks5Adapter.DialUDP | adapter/outbound/socks5.go:73-129 | UDP ASSOCIATE over the (possibly TLS) control stream. A handshake failure is wrapped. The relay is NewMetadata of the bound address; it fails exactly when that parse fails, and then returns the parse error. The control stream is closed on exactly those failures. On success the packet connection frames to the bound address and is absent if the upstream's packet dial failed. |
| Socks5.NewSocks5 | adapter/outbound/socks5.go:131-158 | Never fails. The address is JoinHostPort(server, Itoa(port)), the metadata is kept only when it parses (its error is ignored), and the TLS config comes from Socks5TLSConfig. |
| Shadowsocks.ConfigureShadowSocks | adapter/outbound/shadowsocks.go:97-144 | A cipher failure gives an init error with the address. Plugin "obfs" defaults the host to bing.com and fails unless the mode is tls or http. Plugin "v2ray-plugin" defaults the host to bing.com, the path to "", the headers to none and mux to true, and fails unless the mode is websocket. TLS, skip-verify and the session cache are set only when tls is given. Any other plugin gives no obfuscation. |
| Shadowsocks.NoPluginNoObfs | adapter/outbound/shadowsocks.go:106-144 | An empty or unknown plugin name never fails once the cipher is picked. |
| Shadowsocks.HTTPObfsPort | adapter/outbound/shadowsocks.go:60-62 | The port the HTTP obfuscator gets, split back out of the own address, is the configured port's text. |
| Shadowsocks.ShadowSocksAdapter.StreamConn | adapter/outbound/shadowsocks.go:56-73 | The obfuscation of the mode, then the cipher, then the serialized destination written first, returned with the write's error. A websocket failure is wrapped with the adapter's address. |
| Shadowsocks.ShadowSocksAdapter.DialContext | adapter/outbound/shadowsocks.go:75-82 | An upstream failure gives nothing. Otherwise the StreamConn outcome is wrapped with the chain [name], error included. The wrapped connection is StreamConn's layer stack on the dialled connection, or absent after a websocket failure. |
| Shadowsocks.ShadowSocksAdapter.DialUDP | adapter/outbound/shadowsocks.go:84-95 | It succeeds exactly when the upstream packet dial and the resolve of the own address both succeed. The result is the cipher's packet transform, then address framing to the resolved own address. Each failure is passed on. |
| Shadowsocks.NewShadowSocks | adapter/outbound/shadowsocks.go:97-163 | Fails exactly as ConfigureShadowSocks fails. Otherwise the base fields come from the options, and a metadata error is returned together with the adapter. |
| ShadowsocksR.ConfigureShadowSocksR | adapter/outbound/shadowsocksr.go:77-111 | Each failure of the cipher, obfs and protocol picks gives its own init error ("ssr cipher", "ssr obfs", "ssr protocol"), and a non-stream cipher is refused. It succeeds whenever a stream cipher, the obfs and the protocol are all picked. Obfs is picked with the cipher's IV size and key, head length 30, host = server and port = port. The protocol is picked with no IV, the key and TCP MSS 1460. The recorded overhead is obfs overhead plus protocol overhead. |
| ShadowsocksR.AEADRefused | adapter/outbound/shadowsocksr.go:85-88 | An AEAD cipher always fails construction. |
| ShadowsocksR.ShadowSocksRAdapter.StreamConn | adapter/outbound/shadowsocksr.go:36-50 | Obfs, then cipher, then the protocol keyed with the write IV, then the destination written. A non-shadowstream connection gives "invalid connection type" and an IV failure gives its error. |
| ShadowsocksR.ShadowSocksRAdapter.DialContext | adapter/outbound/shadowsocksr.go:52-60 | After a successful upstream dial, the connection is wrapped even when StreamConn failed; the connection inside is then absent, and the error is the connection-type error or the IV error. Otherwise the wrapped connection is StreamConn's layer stack on the dialled connection, with the write's error. |
| ShadowsocksR.ShadowSocksRAdapter.DialUDP | adapter/outbound/shadowsocksr.go:62-75 | It succeeds exactly when the upstream packet dial and the resolve of the own address both succeed. The result is the cipher packet transform, then the protocol packet transform, then address framing to the resolved own address. Each failure is passed on. |
| ShadowsocksR.NewShadowSocksR | adapter/outbound/shadowsocksr.go:77-128 | Fails exactly as ConfigureShadowSocksR fails. Otherwise the base fields come from the options, and a metadata error is returned together with the adapter. |
| Trojan.Instance | adapter/outbound/trojan.go:82-92 | The TLS server name is the SNI when non-empty, otherwise the server. Password, ALPN and skip-verify are passed through, with the session cache. |
| Trojan.TrojanAdapter.StreamConn | adapter/outbound/trojan.go:30-38 | TLS, then the header with the TCP command and the destination, returned with the header's error. A TLS failure is wrapped with the adapter's address. |
| Trojan.TrojanAdapter.DialContext | adapter/outbound/trojan.go:40-50 | No connection on an upstream, TLS or header error. Otherwise the StreamConn stack with the chain [name]. |
| Trojan.TrojanAdapter.DialUDP | adapter/outbound/trojan.go:52-71 | TLS, then the header with the UDP command, then datagram framing inside that same stream. A TLS failure is wrapped and a header failure is passed on. |
| Trojan.NewTrojan | adapter/outbound/trojan.go:79-108 | Always builds the adapter with the instance options. The only error is the own address's metadata error. |
| SocksWire.SplitAddr | adapter/outbound/shadowsocks.go:184 | A result is a complete address that prefixes the input. No result means no prefix of the input is a complete address. |
| SocksWire.SplitAddrOfAddr | adapter/outbound/shadowsocks.go:184 | A complete address at the front is found whatever follows it. |
| SocksWire.EncodeUDPPacket | adapter/outbound/shadowsocks.go:171 | Fails iff there is no address. Otherwise RSV RSV FRAG, the address, the payload. |
| SocksWire.DecodeUDPPacket | adapter/outbound/socks5.go:179 | A short packet, non-zero RSV and fragmentation are each refused with their own error. A success splits the packet into header, address and payload. |
| SocksWire.DecodeEncode | adapter/outbound/socks5.go:166-192 | Decoding an encoded request gives back its address and payload. |
| SocksWire.AddrUDPAddr | adapter/outbound/shadowsocks.go:189 | Present iff the address is not a domain name, and then the IP field and the port. |
| SocksWire.ParseAddrToSocksAddr | adapter/outbound/socks5.go:167 | No address iff there is no IP. Otherwise an IP-type address. |
| SocksWire.UDPAddrRoundTrip | adapter/outbound/shadowsocks.go:171-189 | A UDP address converted to a SOCKS address and back keeps its port and its IP (4-byte form when it has one). |
| SocksWire.SerializeSocksAddr | adapter/outbound/shadowsocks.go:71 | Per address type: a length-prefixed domain, the 4-byte IP or the 16-byte IP, each followed by the port (Atoi of the port text with its error dropped, as for UDPAddr, truncated to 16 bits). Any other type gives no bytes. |
| SocksWire.SerializeNewMetadataDomain | constant/metadata.go:84-86 | A host name stored by NewMetadata serializes to no bytes, because its type stays 0. |
| SocksWire.BindAddrMetadataIPv4 | adapter/outbound/socks5.go:112 | An IPv4 relay address, printed and read back by NewMetadata, gives exactly the metadata of its 4-byte IP with type IPv4 and the port's decimal text (which reads back as the port by Strconv.AtoiItoa). |
| PacketFraming.CopyResult | adapter/outbound/socks5.go:190 | Go's copy: the first min(len) elements come from the source and the rest are kept. |
| PacketFraming.Copy | adapter/outbound/shadowsocks.go:194 | In place on the array: the new contents are CopyResult of the old ones, and the count is min(len). |
| PacketFraming.SsWrite | adapter/outbound/shadowsocks.go:170-176 | Fails iff the address has no IP. Otherwise the SOCKS address then the payload (the request without its 3 header bytes), sent to the server. |
| PacketFraming.SsRead | adapter/outbound/shadowsocks.go:178-196 | Succeeds iff the received bytes start with a non-domain address. The payload then sits in b[0 .. n-len(addr)] and the count is n-len(addr). A failure gives count 0, a parse error and an untouched buffer. |
| PacketFraming.SsRoundTrip | adapter/outbound/shadowsocks.go:170-196 | Reading back what SsWrite frames, into any buffer large enough, gives the payload, its length and the sender. |
| PacketFraming.SsPacketConn.WriteTo | adapter/outbound/shadowsocks.go:170-176 | The datagram handed on is SsWrite's, or SsWrite's error. |
| PacketFraming.SsPacketConn.ReadFrom | adapter/outbound/shadowsocks.go:178-196 | The count, sender, error and new buffer are SsRead of the buffer after the underlying read. A read error leaves the buffer alone. |
| PacketFraming.SocksWrite | adapter/outbound/socks5.go:166-172 | Fails iff the address has no IP. Otherwise the whole request (header, address, payload), sent to the relay. |
| PacketFraming.SocksRead | adapter/outbound/socks5.go:174-192 | Decodes the n bytes received. Each decode error, or a domain sender, gives count 0. A success gives the payload in front and a count equal to its length, n-len(addr)-3. |
| PacketFraming.SocksReadAsWritten | adapter/outbound/socks5.go:174-192 | As written, it decodes the whole buffer. A decode error or a domain-name sender fails, each with its own error. Otherwise it succeeds with the sender, the payload moved to the front of the buffer, and the count n-len(addr)-3. |
| PacketFraming.AsWrittenAgreesOnWholePackets | adapter/outbound/socks5.go:179-191 | When the received bytes hold a whole request, the code as written reports the same count, sender, error and payload as SocksRead. |
| PacketFraming.ShortDatagramNegativeCount | adapter/outbound/socks5.go:179-191 | On a concrete input (a two-byte datagram read over an earlier request) the code as written reports success from 9.9.9.9:80 with count -8, where SocksRead reports a short packet. |
| PacketFraming.SocksRoundTrip | adapter/outbound/socks5.go:166-192 | Reading back what SocksWrite frames, into any buffer large enough, gives the payload, its length and the sender. |
| PacketFraming.SocksPacketConn.WriteTo | adapter/outbound/socks5.go:166-172 | The datagram handed on is SocksWrite's, or SocksWrite's error. |
| PacketFraming.SocksPacketConn.ReadFrom | adapter/outbound/socks5.go:174-192 | The corrected read (see Findings): the count, sender, error and new buffer are SocksRead of the buffer after the underlying read, which decodes only the bytes received. |
| PacketFraming.SocksPacketConn.ReadFromAsWritten | adapter/outbound/socks5.go:174-192 | The read as written: the count, sender, error and new buffer are SocksReadAsWritten of the buffer after the underlying read, which decodes the whole buffer. |
| PacketFraming.SocksPacketConn.Close | adapter/outbound/socks5.go:194-197 | Both the control connection and the packet connection end up closed, and the packet connection's result is returned. |

## Left out

- Network I/O. Dials, UDP sockets, address resolution, TLS handshakes, the SOCKS client
  handshake, the HTTP client and the DNS resolver are parameters: each is a function or the
  outcome of one call.
- Timing. `context.WithTimeout`, `tcpTimeout`, the 10-second resolve deadline and
  `tcpKeepAlive` are left out. The elapsed time in `URLTest` is a parameter.
- The SOCKS5 UDP drain goroutine (adapter/outbound/socks5.go:120-126), which exists for
  concurrency and lifetime coupling. Without it, the nil packet connection it would close is
  only visible as an absent packet connection.
- Plugin and cipher internals. `core.PickCipher`, the simple-obfs, v2ray-plugin, SSR obfs and
  protocol algorithms, the trojan component and `getClientSessionCache` are layer tags and
  picker functions.
- `MarshalJSON`, `log.Printf`, `Proxy.Dial`/`Proxy.DialContext` (plain pass-through), main.go
  (example wiring) and constant/udp_conn.go (a thin pass-through) are not modelled.
- Shadowsocks.ConfigureShadowSocks: starts from typed plugin options with absent keys. The
  weakly-typed decoder and its decode errors (adapter/outbound/shadowsocks.go:113-115,
  124-126) are not modelled.
- ShadowsocksR.ConfigureShadowSocksR: `SetOverhead` mutates the picked protocol object. The
  model records the sum on the protocol value it returns, so it does not capture aliasing of
  that object.
- OutboundBase.URLTest: models one dial through the HTTP client. Dial retries and multiple
  dials by the HTTP transport are not modelled, and a negative elapsed time cannot occur.
- Trojan.Instance: the trojan component's own defaults (for example for an empty ALPN list)
  are not modelled. The layer records the options it is given.
- SocksWire.ParseAddrToSocksAddr: only takes UDP addresses. The fallback for other
  `net.Addr` types, which re-parses their text, is not modelled. That fallback also runs
  for a UDP address whose IP is nil, where it yields an empty domain-name address. The
  model instead treats a nil-IP UDP address as no address. So the "fails iff the address
  has no IP" of PacketFraming.SsWrite and PacketFraming.SocksWrite is a modelling choice
  for that case.
- NetIP.ParseIP: IPv6 zones are not accepted. IPv4 fields with leading zeros and IPv6
  groups of more than four hex digits are refused, as current Go does; older Go releases
  accepted both.
- Socks5.Socks5Adapter.DialContext, Socks5.Socks5Adapter.DialUDP,
  Shadowsocks.ShadowSocksAdapter.DialContext, Shadowsocks.ShadowSocksAdapter.DialUDP,
  ShadowsocksR.ShadowSocksRAdapter.DialContext, ShadowsocksR.ShadowSocksRAdapter.DialUDP,
  Trojan.TrojanAdapter.DialContext and Trojan.TrojanAdapter.DialUDP require a dialer set
  by `SetDialer`. Every constructor leaves the dialer nil, and these methods call it
  directly (adapter/outbound/socks5.go:62,77,118, shadowsocks.go:76,85, shadowsocksr.go:54,64,
  trojan.go:41,55), so dialing first is a nil-interface panic in Go. Dialing without a
  dialer is outside the model. Nothing in the outbound adapters falls back to a direct
  connection when the dialer is nil.
- Strings are sequences of characters, one byte each. Host names are turned into bytes one
  character per byte, with no UTF-8 encoding.
- The count `WriteTo` returns is the underlying connection's. The model returns the datagram
  handed on instead of a count.

## Findings

| source | as written | input that shows it | evidently intended | confidence | as-written member | corrected member |
|---|---|---|---|---|---|---|
| adapter/outbound/socks5.go:179 | `socksPacketConn.ReadFrom` decodes the whole buffer `b` rather than the `n` bytes just received, then returns `n - len(addr) - 3` | A 12-byte buffer still holding an earlier request `[0,0,0,1,9,9,9,9,0,80,7,7]` receives the 2-byte datagram `[0,0]`. The read reports success from 9.9.9.9:80 with count -8, which the caller would then use as a slice bound. | Decode `b[:n]` as the Shadowsocks packet connection does with `SplitAddr(b[:n])`. A datagram that is too short is then refused ("short packet"). | medium; not executed | PacketFraming.SocksReadAsWritten, PacketFraming.SocksPacketConn.ReadFromAsWritten, PacketFraming.ShortDatagramNegativeCount | PacketFraming.SocksRead, PacketFraming.SocksPacketConn.ReadFrom, PacketFraming.SocksRoundTrip |
