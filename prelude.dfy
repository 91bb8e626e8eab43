/** Shared value types: bytes, optional values, Go's (value, error) pairs and the
    errors the adapters produce. */
module Prelude {

  newtype byte = x: int | 0 <= x < 256

  /** Go's nil-able pointer or slice: None is nil. */
  datatype Option<+T> = None | Some(value: T)

  /** Exactly one of a value or an error (a Go function that returns nil with its error). */
  datatype Result<+T> = Success(value: T) | Failure(error: Error)

  /** A Go (value, error) pair where both halves may be set at once. */
  datatype Ret<+T> = Ret(value: Option<T>, err: Option<Error>)

  /** The errors of the core, one constructor per distinct message. */
  datatype Error =
    | NoSupport                                        // errors.New("no support")
    | AddrError(addr: string, reason: string)          // net.SplitHostPort's *AddrError
    | External(what: string)                           // produced by a component outside the model
    | ConnectError(addr: string, cause: Error)         // "%s connect error: %w"
    | InitError(stage: string, addr: string, cause: Error) // "ss %s initialize error: %w" and kin
    | ObfsModeError(addr: string, mode: string)        // "ss %s obfs mode error: %s"
    | UnsupportedStreamCipher(cipher: string)          // "%s is not a supported stream cipher in ssr"
    | InvalidConnectionType                            // "invalid connection type"
    | ClientHandshakeError(cause: Error)               // "client hanshake error: %w"
    | NoAddressForDomain(host: string)                 // "no address associated with this domain %s"
    | AddressInvalid                                   // EncodeUDPPacket given no address
    | ShortPacket                                      // DecodeUDPPacket: fewer than 5 bytes
    | ReservedNotZero                                  // DecodeUDPPacket: RSV is not 0x0000
    | Fragmented                                       // DecodeUDPPacket: FRAG is not 0
    | BadUDPHeader                                     // DecodeUDPPacket: address does not parse
    | ParseAddrError                                   // "parse addr error"
    | ParseUDPAddrError                                // "parse udp addr error"

  /** `n` zero bytes. */
  function Zeros(n: nat): (r: seq<byte>)
    ensures |r| == n && forall i :: 0 <= i < n ==> r[i] == 0
  {
    seq(n, _ => 0)
  }

  /** Go's `[]byte(s)`, with every character taken as one byte. */
  function Bytes(s: string): (r: seq<byte>)
    ensures |r| == |s|
  {
    seq(|s|, i requires 0 <= i < |s| => (s[i] as int % 256) as byte)
  }
}
