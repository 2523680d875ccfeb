/**
  What the two proxy dial paths share: bytes, the ways a dial can fail, its outcome,
  and the best-effort socket options applied to a TCP connection that succeeded.
*/
module Dial {

  newtype byte = b: int | 0 <= b < 256

  /** The bytes of an ASCII text, one byte per character. */
  function Ascii(s: string): (b: seq<byte>)
    requires forall i :: 0 <= i < |s| ==> s[i] as int < 256
    ensures |b| == |s|
    ensures forall i :: 0 <= i < |s| ==> b[i] as int == s[i] as int
  {
    seq(|s|, i requires 0 <= i < |s| => s[i] as int as byte)
  }

  /** Why a dial failed. Errors that the source passes through from the connection keep no detail. */
  datatype DialError =
    | WriteError                  // conn.Write failed (SOCKS5 path only; the HTTP path ignores it)
    | ReadError                   // conn.Read failed before the HTTP header block was complete
    | HeaderTooLong               // 256 bytes buffered without "\r\n\r\n" (see HttpProxy.AsWrittenLoop)
    | ProxyConnectError           // "PROXY CONNECT ERROR"
    | MethodError                 // "SOCKS5 METHOD ERROR"
    | InvalidAddress(addr: string) // "Invalid address for socks proxy: " + addr
    | InvalidPort(addr: string)   // "Invalid port for socks proxy: " + addr
    | ReplyError                  // statute.ParseReply failed
    | ConnectError                // "SOCKS5 CONNECT ERROR"

  /** A dial either hands the connection to the caller or fails with one error. */
  datatype Outcome = Connected | Failed(error: DialError)

  /** Best-effort TCP socket options; their own errors are discarded by the source. */
  datatype SockOpt =
    | NoDelay(on: bool)
    | KeepAlive(on: bool)
    | KeepAlivePeriod(seconds: nat)
    | ReadBuffer(size: nat)
    | WriteBuffer(size: nat)

  const KeepAliveSeconds: nat := 30
  const SocketBufferSize: nat := 1024 * 1024

  /** The options the SOCKS5 path sets after a successful handshake. */
  const Socks5Tuning: seq<SockOpt> := [NoDelay(true), KeepAlive(true), KeepAlivePeriod(KeepAliveSeconds)]

  /** The HTTP path sets the same options and also enlarges both socket buffers to 1 MiB. */
  const HttpTuning: seq<SockOpt> := Socks5Tuning + [ReadBuffer(SocketBufferSize), WriteBuffer(SocketBufferSize)]
}
