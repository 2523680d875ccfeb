/**
  The SOCKS5 dial path (dialDirectWithSocksProxy), the client side of RFC 1928:
  offer the "no authentication" method (section 3), classify the destination as an
  IPv4, IPv6 or domain address (section 5), send a CONNECT or UDP ASSOCIATE request
  (section 4) and check the reply (section 6).

  Messages are records, not bytes: their wire layout belongs to a library outside this
  model. net.ParseIP and strconv.Atoi are outside it too and are passed in as the
  partial functions of a Lib value.
*/
module Socks5 {
  import opened Wrappers
  import opened Dial
  import opened Text

  // Protocol constants of RFC 1928.
  const VersionSocks5: byte := 5
  const MethodNoAuth: byte := 0
  const CommandConnect: byte := 1
  const CommandAssociate: byte := 3
  const ATYPIPv4: byte := 1
  const ATYPDomain: byte := 3
  const ATYPIPv6: byte := 4
  const RepSuccess: byte := 0

  /** An IP address as net.IP holds it. */
  type IP = seq<byte>

  /** The foreign parsers the address step calls; None stands for their failure. */
  datatype Lib = Lib(parseIP: string -> Option<IP>, atoi: string -> Option<int>)

  /** The destination of a request: an address type, an IP or a domain name, and a port. */
  datatype AddrSpec = AddrSpec(fqdn: string, ip: Option<IP>, port: int, addrType: byte)

  datatype MethodReply = MethodReply(ver: byte, selected: byte)  // `selected` is the Method field of the source

  datatype Request = Request(version: byte, command: byte, dstAddr: AddrSpec)

  datatype Reply = Reply(version: byte, response: byte)

  /** What the client writes to the proxy. */
  datatype Frame = MethodRequest(ver: byte, methods: seq<byte>) | RequestFrame(req: Request)

  /** The method request the source writes: version 5, the single method "no authentication". */
  const NoAuthOffer: Frame := MethodRequest(VersionSocks5, [MethodNoAuth])

  /**
    The destination step: split `usedAddr` at every ':' and classify it. A literal IP
    with more than two pieces is IPv6, its host being the address without its last
    ":piece" and required to parse; a literal IP with two pieces is IPv4, whose host is
    never checked; a non-literal address must have two pieces and is a domain taken
    verbatim. The last piece must parse as an integer port.
  */
  function ParseDestination(usedAddr: string, isIP: bool, lib: Lib): (r: Result<AddrSpec, DialError>)
    ensures var colons := CountOf(usedAddr, ':');
      && (colons == 0 ==> r == Failure(InvalidAddress(usedAddr)))
      && (!isIP && colons >= 2 ==> r == Failure(InvalidAddress(usedAddr)))
      && (r.Success? ==> r.value.addrType == if !isIP then ATYPDomain else if colons == 1 then ATYPIPv4 else ATYPIPv6)
      && (r.Success? && r.value.addrType == ATYPIPv6 ==> r.value.ip.Some? && r.value.fqdn == "")
      && (r.Success? && r.value.addrType == ATYPDomain ==> r.value.ip.None?)
      && (r.Failure? ==> r.error == InvalidAddress(usedAddr) || r.error == InvalidPort(usedAddr))
  {
    var parts := Split(usedAddr, ':');
    var last := Last(parts);
    if isIP then
      if |parts| > 2 then
        match lib.parseIP(TrimSuffix(usedAddr, ":" + last))
        case None => Failure(InvalidAddress(usedAddr))
        case Some(ip) =>
          match lib.atoi(last)
          case None => Failure(InvalidPort(usedAddr))
          case Some(port) => Success(AddrSpec("", Some(ip), port, ATYPIPv6))
      else if |parts| == 2 then
        match lib.atoi(parts[1])
        case None => Failure(InvalidPort(usedAddr))
        case Some(port) => Success(AddrSpec("", lib.parseIP(parts[0]), port, ATYPIPv4))
      else
        Failure(InvalidAddress(usedAddr))
    else if |parts| != 2 then
      Failure(InvalidAddress(usedAddr))
    else
      match lib.atoi(parts[1])
      case None => Failure(InvalidPort(usedAddr))
      case Some(port) => Success(AddrSpec(parts[0], None, port, ATYPDomain))
  }

  /** CONNECT for "tcp" and UDP ASSOCIATE for every other network name. */
  function CommandFor(network: string): (c: byte)
    ensures c == CommandConnect <==> network == "tcp"
    ensures c == CommandAssociate <==> network != "tcp"
  {
    if network == "tcp" then CommandConnect else CommandAssociate
  }

  /** How the proxy behaves at each step of the exchange. */
  datatype Proxy = Proxy(
    acceptsWrites: nat,               // writes that succeed before the transport fails
    methodReply: Option<MethodReply>, // what ParseMethodReply yields; None: it failed
    reply: Option<Reply>)             // what ParseReply yields; None: it failed

  /** The frames a handshake wrote and how it ended. */
  datatype Handshake = Handshake(frames: seq<Frame>, outcome: Outcome)

  /** The whole SOCKS5 handshake against `proxy`, step by step, stopping at the first failure. */
  function Socks5Handshake(proxy: Proxy, network: string, usedAddr: string, isIP: bool, lib: Lib): Handshake {
    if proxy.acceptsWrites == 0 then Handshake([], Failed(WriteError))
    else
      var offered := [NoAuthOffer];
      match proxy.methodReply
      case None => Handshake(offered, Failed(MethodError))
      case Some(m) =>
        if m.selected != MethodNoAuth || m.ver != VersionSocks5 then Handshake(offered, Failed(MethodError))
        else
          match ParseDestination(usedAddr, isIP, lib)
          case Failure(e) => Handshake(offered, Failed(e))
          case Success(dst) =>
            if proxy.acceptsWrites == 1 then Handshake(offered, Failed(WriteError))
            else
              var frames := offered + [RequestFrame(Request(VersionSocks5, CommandFor(network), dst))];
              match proxy.reply
              case None => Handshake(frames, Failed(ReplyError))
              case Some(rep) =>
                if rep.version != VersionSocks5 || rep.response != RepSuccess then Handshake(frames, Failed(ConnectError))
                else Handshake(frames, Connected)
  }

  /** The connection to the SOCKS5 proxy, as far as the handshake sees it. */
  class Socks5Conn {
    const isTcp: bool       // the transport is a TCP connection, so it can be tuned
    const proxy: Proxy      // how the proxy answers
    var sent: seq<Frame>    // what has been written, in order
    var opts: seq<SockOpt>  // socket options set so far

    constructor (isTcp: bool, proxy: Proxy)
      ensures this.isTcp == isTcp && this.proxy == proxy && sent == [] && opts == []
    {
      this.isTcp, this.proxy := isTcp, proxy;
      sent, opts := [], [];
    }

    method Write(f: Frame) returns (err: bool)
      modifies this`sent
      ensures err == (|old(sent)| >= proxy.acceptsWrites)
      ensures sent == if err then old(sent) else old(sent) + [f]
    {
      err := |sent| >= proxy.acceptsWrites;
      if !err {
        sent := sent + [f];
      }
    }

    /** statute.ParseMethodReply on this connection. */
    method ReadMethodReply() returns (r: Option<MethodReply>)
      ensures r == proxy.methodReply
    {
      r := proxy.methodReply;
    }

    /** statute.ParseReply on this connection. */
    method ReadReply() returns (r: Option<Reply>)
      ensures r == proxy.reply
    {
      r := proxy.reply;
    }

    /** The best-effort tuning of the success path: no buffer sizes here, unlike the HTTP path. */
    method Tune()
      modifies this`opts
      ensures opts == old(opts) + if isTcp then Socks5Tuning else []
    {
      if isTcp {
        opts := opts + Socks5Tuning;
      }
    }
  }

  /** The handshake over a freshly opened connection to the proxy. */
  method DialSocks5(conn: Socks5Conn, network: string, usedAddr: string, isIP: bool, lib: Lib) returns (r: Outcome)
    requires conn.sent == [] && conn.opts == []
    modifies conn
    ensures var h := Socks5Handshake(conn.proxy, network, usedAddr, isIP, lib);
      r == h.outcome && conn.sent == h.frames
    ensures conn.opts == if r.Connected? && conn.isTcp then Socks5Tuning else []
  {
    // method negotiation
    var err := conn.Write(NoAuthOffer);
    if err {
      return Failed(WriteError);
    }
    var methodReply := conn.ReadMethodReply();
    if methodReply.None? || methodReply.value.selected != MethodNoAuth || methodReply.value.ver != VersionSocks5 {
      return Failed(MethodError);
    }

    // destination address
    var dstAddr := ParseDestination(usedAddr, isIP, lib);
    if dstAddr.Failure? {
      return Failed(dstAddr.error);
    }

    // request
    var command := CommandConnect;
    if network != "tcp" {
      command := CommandAssociate;
    }
    var req := Request(VersionSocks5, command, dstAddr.value);
    err := conn.Write(RequestFrame(req));
    if err {
      return Failed(WriteError);
    }
    var reply := conn.ReadReply();
    if reply.None? {
      return Failed(ReplyError);
    }
    if reply.value.version != VersionSocks5 || reply.value.response != RepSuccess {
      return Failed(ConnectError);
    }

    conn.Tune();
    return Connected;
  }

  // ---------------------------------------------------------------------------
  // The destination step, case by case. Every address falls under one of these:
  // it has no ':' at all, or it is its text before the last ':', that ':', and a
  // port text without ':' (Text.SplitAtLastSeparator).

  /** An address without ':' is invalid whatever the flag says. */
  lemma NoColonIsInvalid(addr: string, isIP: bool, lib: Lib)
    requires ':' !in addr
    ensures ParseDestination(addr, isIP, lib) == Failure(InvalidAddress(addr))
  {
  }

  /**
    A literal IP whose host holds a ':' is IPv6: the host passed to ParseIP is exactly
    the text before the last ':', an unparseable host is an invalid address whatever
    the port, and otherwise the port must parse.
  */
  lemma {:induction false} IPv6Destination(host: string, port: string, lib: Lib)
    requires ':' in host && ':' !in port
    ensures var addr := host + ":" + port;
      ParseDestination(addr, true, lib) ==
        match lib.parseIP(host)
        case None => Failure(InvalidAddress(addr))
        case Some(ip) =>
          match lib.atoi(port)
          case None => Failure(InvalidPort(addr))
          case Some(p) => Success(AddrSpec("", Some(ip), p, ATYPIPv6))
  {
    var addr := host + ":" + port;
    assert addr == host + [':'] + port;
    SplitAppendPiece(host, port, ':');
    assert |Split(host, ':')| >= 2;
    TrimLastPiece(host, port, ':');
  }

  /** A literal IP with one ':' is IPv4 with its host as ParseIP returns it, parsed or not. */
  lemma {:induction false} IPv4Destination(host: string, port: string, lib: Lib)
    requires ':' !in host && ':' !in port
    ensures var addr := host + ":" + port;
      ParseDestination(addr, true, lib) ==
        match lib.atoi(port)
        case None => Failure(InvalidPort(addr))
        case Some(p) => Success(AddrSpec("", lib.parseIP(host), p, ATYPIPv4))
  {
    assert host + ":" + port == host + [':'] + port;
    SplitAppendPiece(host, port, ':');
    SplitWithoutSeparator(host, ':');
  }

  /** A name with one ':' is a domain: the text before the ':' verbatim, and the parsed port. */
  lemma {:induction false} DomainDestination(host: string, port: string, lib: Lib)
    requires ':' !in host && ':' !in port
    ensures var addr := host + ":" + port;
      ParseDestination(addr, false, lib) ==
        match lib.atoi(port)
        case None => Failure(InvalidPort(addr))
        case Some(p) => Success(AddrSpec(host, None, p, ATYPDomain))
  {
    assert host + ":" + port == host + [':'] + port;
    SplitAppendPiece(host, port, ':');
    SplitWithoutSeparator(host, ':');
  }

  /** A name whose text before the last ':' holds another ':' is invalid. */
  lemma {:induction false} DomainWithColonsIsInvalid(host: string, port: string, lib: Lib)
    requires ':' in host && ':' !in port
    ensures ParseDestination(host + ":" + port, false, lib) == Failure(InvalidAddress(host + ":" + port))
  {
    assert host + ":" + port == host + [':'] + port;
    SplitAppendPiece(host, port, ':');
    assert |Split(host, ':')| >= 2;
  }

  // ---------------------------------------------------------------------------
  // The handshake as a whole

  /**
    Unless the proxy selected "no authentication" under version 5, the dial fails with
    SOCKS5 METHOD ERROR after writing only the method request; the destination is then
    never examined, so even an invalid address reports the method error.
  */
  lemma MethodRejectedStopsHandshake(proxy: Proxy, network: string, usedAddr: string, isIP: bool, lib: Lib)
    requires proxy.acceptsWrites >= 1
    requires proxy.methodReply != Some(MethodReply(VersionSocks5, MethodNoAuth))
    ensures Socks5Handshake(proxy, network, usedAddr, isIP, lib) == Handshake([NoAuthOffer], Failed(MethodError))
  {
  }

  /**
    A request is written exactly when the method request was written, the proxy chose
    "no authentication" under version 5, the destination parsed and the second write
    went through; it is then the second and last frame, carrying the parsed destination
    and CONNECT exactly for "tcp".
  */
  lemma RequestSentIff(proxy: Proxy, network: string, usedAddr: string, isIP: bool, lib: Lib)
    ensures var h := Socks5Handshake(proxy, network, usedAddr, isIP, lib);
      var dst := ParseDestination(usedAddr, isIP, lib);
      && (|h.frames| == 2 <==>
            proxy.acceptsWrites >= 2 && proxy.methodReply == Some(MethodReply(VersionSocks5, MethodNoAuth)) && dst.Success?)
      && |h.frames| <= 2
      && (|h.frames| >= 1 ==> h.frames[0] == NoAuthOffer)
      && (|h.frames| == 2 ==> h.frames[1] == RequestFrame(Request(VersionSocks5, CommandFor(network), dst.value)))
  {
  }

  /**
    The dial succeeds exactly when every step does: both writes, the "no authentication"
    choice under version 5, the destination, and a version 5 success reply.
  */
  lemma ConnectedIff(proxy: Proxy, network: string, usedAddr: string, isIP: bool, lib: Lib)
    ensures Socks5Handshake(proxy, network, usedAddr, isIP, lib).outcome == Connected <==>
      && proxy.acceptsWrites >= 2
      && proxy.methodReply == Some(MethodReply(VersionSocks5, MethodNoAuth))
      && ParseDestination(usedAddr, isIP, lib).Success?
      && proxy.reply.Some? && proxy.reply.value.version == VersionSocks5 && proxy.reply.value.response == RepSuccess
  {
  }

  /**
    A name such as "example.com:443", over "tcp", against a proxy that accepts no
    authentication and replies success: exactly one CONNECT request, for the domain
    taken verbatim and the parsed port, and the connection is returned.
  */
  lemma DomainConnectScenario(host: string, port: string, p: int, lib: Lib)
    requires ':' !in host && ':' !in port && lib.atoi(port) == Some(p)
    ensures Socks5Handshake(Proxy(2, Some(MethodReply(5, 0)), Some(Reply(5, 0))), "tcp", host + ":" + port, false, lib) ==
      Handshake([NoAuthOffer, RequestFrame(Request(5, CommandConnect, AddrSpec(host, None, p, ATYPDomain)))], Connected)
  {
    DomainDestination(host, port, lib);
  }
}
