# Proxy dialing of zju-connect, modelled in Dafny

This project models the two proxy dial paths of `dial/dialer_proxy.go` in zju-connect.
Each path opens a tunnel to a destination `host:port` through a proxy:

- **HTTP CONNECT** (`dialDirectWithHTTPProxy`, the client side of section 9.3.6 of RFC 9110):
  - It writes `CONNECT <addr> HTTP/1.1\r\n\r\n`.
  - It fills a 256-byte buffer from successive reads until the buffer holds `\r\n\r\n`.
  - It accepts the tunnel when the buffered bytes contain `200` anywhere.
- **SOCKS5** (`dialDirectWithSocksProxy`, the client side of RFC 1928):
  - It offers the "no authentication" method and checks the method reply (RFC 1928 section 3).
  - It classifies the destination as IPv4, IPv6 or a domain name (section 5).
  - It sends CONNECT for `tcp` and UDP ASSOCIATE for any other network (section 4).
  - It checks the reply (section 6).
- **Tuning**: both paths tune a TCP socket only on success. Only the HTTP path sets the buffer sizes.

Files:

- `wrappers.dfy`: `Option` and `Result`.
- `text.dfy` (module `Text`): the Go `strings` functions the dialer calls.
  - `Contains`, `Split` with a one-character separator, and `TrimSuffix`.
  - `Join` as the inverse of `Split`, with the lemmas tying the two together.
- `dial.dfy` (module `Dial`): what the two paths share.
  - Bytes, the dial errors (with the source's messages), the dial outcome, and the socket options.
- `http_proxy.dfy` (module `HttpProxy`): the HTTP path.
  - The connection is a class, `HttpConn`. It holds a finite script of read results: the bytes each `Read` returns and whether that read failed.
  - The read loop (`ReadHeaderInto`) works in place on an `array<byte>` of 256 bytes. A `totalNum` counter tracks the bytes buffered.
  - It is proved against the function `ReadHeader`. `DialHttpProxy` is proved against `HttpDial`.
- `socks5.dfy` (module `Socks5`): the SOCKS5 path.
  - The proxy's behaviour is a record (`Proxy`). It gives how many writes succeed and what the two parse steps return.
  - Messages are records, not bytes.
  - `net.ParseIP` and `strconv.Atoi` are partial functions supplied in a `Lib` value.
  - `DialSocks5` performs the steps on a `Socks5Conn`. It is proved against the function `Socks5Handshake`.

Go strings are byte strings. A `string` here holds one `char` per byte. The HTTP buffer holds `byte` values (0 to 255).

Four behaviours of the code that a caller might not expect; the model follows the code in each:

- **Port.** Any integer that `strconv.Atoi` accepts becomes the port, negative values and values above 65535 included. RFC 1928 (section 4) carries DST.PORT in two octets, so only 0 to 65535 can be sent, but the code checks no range.
- **Where `200` is looked for.** The check covers every buffered byte. This includes bytes that arrived after `\r\n\r\n` in the same read, not only the header block.
- **When the address is checked.** The SOCKS5 destination is classified only after method negotiation. So an invalid address is reported after the proxy has been contacted, and a method failure hides it.
- **IPv4 hosts.** An IPv4 host is never checked. A host that `net.ParseIP` rejects is still sent, with no IP, although RFC 1928 (section 5) makes an IPv4 DST.ADDR four octets.

## Model

| member | source | states |
|---|---|---|
| `Text.Split` | dial/dialer_proxy.go:93 | `strings.Split(usedAddr, ":")`: one more piece than there are colons, no piece contains a colon, and joining the pieces with colons gives the address back |
| `Text.SplitJoin` | dial/dialer_proxy.go:93 | splitting colon-free pieces joined by colons gives those pieces back (the other half of the round trip) |
| `Text.SplitAtLastSeparator` | dial/dialer_proxy.go:93-99 | every address that holds a colon is its text before the last colon, that colon, and a colon-free last piece, and that piece is the last element of the split |
| `Text.TrimSuffix` | dial/dialer_proxy.go:99 | `strings.TrimSuffix`: a string that ends with the suffix loses exactly that suffix, and any other string is left unchanged |
| `Text.TrimLastPiece` | dial/dialer_proxy.go:99 | trimming `":" + lastPart` from `host + ":" + lastPart` leaves exactly `host` |
| `HttpProxy.ReadCall` | dial/dialer_proxy.go:41 | one `conn.Read(connBuf[totalNum:])` delivers no more bytes than the slice holds; a read into a non-empty slice consumes exactly the next scripted read, delivers a prefix of its bytes and reports its error; with no read left it reports end of stream; a read into an empty slice returns nothing, no error, and consumes nothing |
| `HttpProxy.ReadHeader` | dial/dialer_proxy.go:38-46 | the header read only adds to what was buffered and never buffers more than 256 bytes; it ends normally only when the buffer contains `\r\n\r\n`; it reports a full buffer only at 256 bytes without the terminator; the reads it leaves are a suffix of the script |
| `HttpProxy.HttpConn.Write` | dial/dialer_proxy.go:37 | a write records the request exactly when the connection accepts writes, and reports an error otherwise |
| `HttpProxy.HttpConn.Read` | dial/dialer_proxy.go:41 | the bytes of `ReadCall` land at `connBuf[totalNum:]`; the buffered prefix and the rest of the buffer stay as they were; the script advances as `ReadCall` says |
| `HttpProxy.HttpConn.Tune` | dial/dialer_proxy.go:50-57 | a TCP connection gets no-delay, keep-alive with a 30 s period, and 1 MiB read and write buffers; any other connection gets nothing |
| `HttpProxy.ReadHeaderInto` | dial/dialer_proxy.go:38-46 | the in-place loop over the 256-byte array ends with `connBuf[:totalNum]` equal to the bytes `ReadHeader` buffers, with `totalNum` at most 256, the same status, and the same reads left |
| `HttpProxy.DialHttpProxy` | dial/dialer_proxy.go:24-62 | writes exactly `CONNECT <usedAddr> HTTP/1.1\r\n\r\n` when the connection accepts it; the outcome is `HttpDial` of the reads, whatever the write did; the socket is tuned only on success |
| `HttpProxy.FailedReadEndsHeader` | dial/dialer_proxy.go:41-45 | a failing read ends the header read with a read error whatever was buffered before it, provided the loop was still reading (no terminator, buffer not full); the reads after it are left |
| `HttpProxy.OnlyGoodReadsConsumed` | dial/dialer_proxy.go:38-46 | a header read that ends with the terminator or a full buffer consumed no failing read |
| `HttpProxy.ReadFailedAtFailingRead` | dial/dialer_proxy.go:41-45 | a header read that ends with a read error ended at a read that failed, or at the end of the stream |
| `HttpProxy.FailedReadFailsDial` | dial/dialer_proxy.go:41-45 | a read error on the first read fails the dial, even when that same read delivered a complete header containing `200` |
| `HttpProxy.ConnectedReadsNoFailure` | dial/dialer_proxy.go:38-58 | a dial that connects consumed no failing read, so any read error before the header block is complete fails the dial |
| `HttpProxy.OneReadResponse` | dial/dialer_proxy.go:40-61 | a response that arrives whole in one read succeeds exactly when `200` occurs anywhere in those bytes, past the terminator included; otherwise it fails with PROXY CONNECT ERROR; later reads are not consumed |
| `HttpProxy.FittingStream` | dial/dialer_proxy.go:38-48 | when the whole response fits in the buffer and no read fails, the header read ends normally exactly when the stream contains `\r\n\r\n`; what it buffers is a prefix of the stream, and is the whole stream when the terminator never comes |
| `HttpProxy.AsWrittenLoop` | dial/dialer_proxy.go:38-46 | the loop exactly as written, run for any number of iterations, only adds to the buffered bytes and never buffers more than 256 of them |
| `HttpProxy.AsWrittenLoopNeverExits` | dial/dialer_proxy.go:38-46 | once 256 bytes without `\r\n\r\n` are buffered, every later iteration of the loop as written leaves the loop state unchanged, so the loop never exits |
| `HttpProxy.FixOnlyChangesFullBuffer` | dial/dialer_proxy.go:38-46 | given enough iterations, the loop as written ends as `ReadHeader` does, with the same bytes and reads left; the one exception is `ReadHeader`'s full-buffer stop, where the loop as written is still running |
| `HttpProxy.LongHeaderStallsAsWritten` | dial/dialer_proxy.go:38-46 | when the first read delivers 256 or more bytes with no terminator in the first 256, the loop as written never exits, while the model's dial fails with `HeaderTooLong` |
| `HttpProxy.EstablishedResponseConnects` | dial/dialer_proxy.go:48-58 | `HTTP/1.1 200 Connection Established\r\n\r\n` in one read establishes the tunnel |
| `HttpProxy.ForbiddenResponseFails` | dial/dialer_proxy.go:48-61 | `HTTP/1.1 403 Forbidden\r\n\r\n` in one read fails with PROXY CONNECT ERROR |
| `Socks5.ParseDestination` | dial/dialer_proxy.go:93-122 | an address without a colon is invalid; a name with two or more colons is invalid; on success the type is a domain for a name, IPv4 for a literal with one colon, and IPv6 for a literal with more; an IPv6 result always carries an IP; a domain never does; the only failures are invalid address and invalid port for that address |
| `Socks5.CommandFor` | dial/dialer_proxy.go:125-128 | the command is CONNECT exactly when the network is `tcp`, and UDP ASSOCIATE for every other network (`tcp4`, `udp`, ...) |
| `Socks5.Socks5Conn.Write` | dial/dialer_proxy.go:77-85 | a write records the frame exactly when the proxy still accepts writes, and reports an error otherwise |
| `Socks5.Socks5Conn.ReadMethodReply` | dial/dialer_proxy.go:87 | `statute.ParseMethodReply` yields what the proxy sends, or fails |
| `Socks5.Socks5Conn.ReadReply` | dial/dialer_proxy.go:141 | `statute.ParseReply` yields what the proxy sends, or fails |
| `Socks5.Socks5Conn.Tune` | dial/dialer_proxy.go:150-154 | a TCP connection gets no-delay and keep-alive with a 30 s period, and no buffer sizes; any other connection gets nothing |
| `Socks5.DialSocks5` | dial/dialer_proxy.go:64-157 | the steps performed on a fresh connection write exactly the frames of `Socks5Handshake` and end with its outcome; the socket is tuned only on success |
| `Socks5.NoColonIsInvalid` | dial/dialer_proxy.go:104-113 | an address without a colon is an invalid address, with or without `isIP` |
| `Socks5.IPv6Destination` | dial/dialer_proxy.go:96-103 | a literal whose host holds a colon is IPv6; the host given to `net.ParseIP` is exactly the text before the last colon; an unparseable host is an invalid address before the port is looked at; otherwise the last piece must parse as the port |
| `Socks5.IPv4Destination` | dial/dialer_proxy.go:104-107 | a literal with one colon is IPv4; its IP is whatever `net.ParseIP` returns for the text before the colon, with no check that it parsed; the text after the colon must parse as the port |
| `Socks5.DomainDestination` | dial/dialer_proxy.go:111-117 | a name with one colon is a domain; the domain is the text before the colon, verbatim; the port is the parsed text after it |
| `Socks5.DomainWithColonsIsInvalid` | dial/dialer_proxy.go:112-113 | a name with more than one colon is an invalid address |
| `Socks5.MethodRejectedStopsHandshake` | dial/dialer_proxy.go:87-90 | unless the method reply parses as version 5 with "no authentication", the dial fails with SOCKS5 METHOD ERROR; only the method request has been written, and the address is never examined |
| `Socks5.RequestSentIff` | dial/dialer_proxy.go:87-139 | the request is written (as the second and last frame) exactly when the first write went through, the method reply was version 5 with "no authentication", the destination parsed, and the second write went through; the request carries version 5, `CommandFor(network)` and the parsed destination |
| `Socks5.ConnectedIff` | dial/dialer_proxy.go:87-156 | the dial succeeds exactly when both writes go through, the method reply is version 5 with "no authentication", the destination parses, and the reply parses with version 5 and response success |
| `Socks5.DomainConnectScenario` | dial/dialer_proxy.go:111-147 | a name such as `example.com:443` over `tcp`, against a proxy that accepts no authentication and replies success, is sent as one CONNECT request for the verbatim domain and the parsed port, and the dial succeeds |

## Left out

- `dialDirectWithoutProxy` (dial/dialer_proxy.go:14-21) has no logic of its own. It is one call to the operating system's connect.
- Opening the connection to the proxy is not modelled: `net.Dialer` with its 30 s timeout and keep-alive, the context, and the error when connecting fails. Each dial method starts from a connection that is already open.
- The `log.Printf` calls are not modelled.
- The byte layout of the SOCKS5 messages is not modelled. That layout is produced and parsed by the `go-socks5/statute` library, which is not part of this model. Method requests, requests, method replies and replies are records.
- How `net.ParseIP` and `strconv.Atoi` parse is not modelled. They are arbitrary partial functions in `Socks5.Lib`.
- The source never closes the connection on an error path. The model has no notion of closing, so this leak is not represented.
- A dial that succeeds returns `Connected`; the connection object stays with the caller. The model does not track where the stream is positioned after the handshake.
- `HttpProxy.ReadCall`: a scripted read that offers more bytes than the free part of the buffer delivers only what fits. The rest is dropped, whereas a real stream would return it on the next read. The source never reads beyond the buffer, so what it buffers is the same.
- `Socks5.Socks5Conn.ReadMethodReply` and `Socks5.Socks5Conn.ReadReply` return the proxy's one scripted answer. Each is called once per dial, so a second call is not modelled.
- A failing write is all-or-nothing. Partial writes are not modelled.
- `HttpProxy.DialHttpProxy` stops with `HeaderTooLong` where the source's loop never exits (see Findings). The behaviour as written is modelled by `HttpProxy.AsWrittenLoop`.
- `HttpProxy.ReadHeader` ends with `BufferFull` at 256 bytes without `\r\n\r\n`, where the source's loop never exits (see Findings). `HttpProxy.FixOnlyChangesFullBuffer` shows this is its only difference from `HttpProxy.AsWrittenLoop`.
- `HttpProxy.ReadHeaderInto` returns `BufferFull` from a full buffer without `\r\n\r\n`, where the source's loop keeps reading into an empty slice forever (see Findings).

## Findings

| source | as written | input that shows it | evidently intended | confidence | as-written member | corrected member |
|---|---|---|---|---|---|---|
| dial/dialer_proxy.go:38-46 | The read loop has no exit for a full buffer. Once `totalNum` reaches 256, every `conn.Read(connBuf[totalNum:])` gets an empty slice, and a read into an empty slice on a network connection returns 0 bytes and no error. So the loop retests the same 256 bytes forever. | A proxy response whose first 256 bytes contain no `\r\n\r\n`, for example a `200` response with a header block longer than 256 bytes. | Fail the dial when the buffer fills without the terminator. | High for the loop's logic. It relies on Go's network `Read` returning (0, nil) for an empty slice. Not executed. | `HttpProxy.LongHeaderStallsAsWritten` | `HttpProxy.FixOnlyChangesFullBuffer` |
