/**
  The HTTP CONNECT dial path (dialDirectWithHTTPProxy): write
  "CONNECT <addr> HTTP/1.1\r\n\r\n" to an open connection to the proxy, fill a
  256-byte buffer from successive reads until it holds "\r\n\r\n", and accept the
  tunnel when the buffered bytes contain "200" anywhere.

  The connection is a finite script of read results. The method DialHttpProxy runs
  the read loop in place over an `array<byte>` and is specified by the function
  HttpDial; the lemmas below state what the source promises about that function.
*/
module HttpProxy {
  import opened Dial
  import opened Text

  /** Size of the source's `connBuf`. */
  const BufSize: nat := 256

  /** "\r\n\r\n", the end of an HTTP header block. */
  const Terminator: seq<byte> := [13, 10, 13, 10]

  /** "200", the text whose presence the source takes as success. */
  const Status200: seq<byte> := [50, 48, 48]

  /** The request the source writes: a bare CONNECT line and an empty header block. */
  function ConnectRequest(usedAddr: string): string {
    "CONNECT " + usedAddr + " HTTP/1.1\r\n\r\n"
  }

  /** What one Read call on the connection returns: some bytes and whether it failed (EOF included). */
  datatype Chunk = Chunk(data: seq<byte>, failed: bool)

  /** All bytes a script delivers, ignoring where the reads end. */
  function Stream(script: seq<Chunk>): seq<byte> {
    if script == [] then [] else script[0].data + Stream(script[1..])
  }

  /** The bytes delivered by one Read into a slice with `space` free bytes, its error, and the script left. */
  datatype ReadResult = ReadResult(data: seq<byte>, err: bool, rest: seq<Chunk>)

  /**
    One Read call into a slice of `space` bytes. A zero-length slice returns at once with
    no bytes and no error, as Go's network connections do. An exhausted script reads as
    end of stream. Otherwise the next scripted read delivers at most `space` of its bytes.
  */
  function ReadCall(script: seq<Chunk>, space: nat): (r: ReadResult)
    ensures |r.data| <= space
    ensures space > 0 && !r.err ==> |r.rest| < |script|
    ensures space == 0 ==> r == ReadResult([], false, script)
    ensures space > 0 && script != [] ==> r.rest == script[1..] && r.err == script[0].failed && r.data <= script[0].data
    ensures space > 0 && script == [] ==> r == ReadResult([], true, [])
  {
    if space == 0 then ReadResult([], false, script)
    else if script == [] then ReadResult([], true, [])
    else
      var c := script[0];
      ReadResult(c.data[..if |c.data| <= space then |c.data| else space], c.failed, script[1..])
  }

  /** How the header read ended. */
  datatype ReadStatus = Terminated | ReadFailed | BufferFull

  /** The end of a header read: its status, the bytes buffered and the reads not yet consumed. */
  datatype HeaderRead = HeaderRead(status: ReadStatus, acc: seq<byte>, rest: seq<Chunk>)

  /**
    The header read loop, continuing from `acc` already buffered: read into the free
    tail of the buffer until it contains the terminator. A read error ends it at once,
    keeping the bytes that read delivered. A full buffer without the terminator ends it
    with BufferFull (the source itself never stops there: see AsWrittenLoop).
  */
  function ReadHeader(script: seq<Chunk>, acc: seq<byte>): (h: HeaderRead)
    requires |acc| <= BufSize
    ensures acc <= h.acc && |h.acc| <= BufSize
    ensures h.status == Terminated ==> Contains(h.acc, Terminator)
    ensures h.status == BufferFull ==> |h.acc| == BufSize && !Contains(h.acc, Terminator)
    ensures |h.rest| <= |script| && h.rest == script[|script| - |h.rest|..]
    decreases |script|
  {
    if Contains(acc, Terminator) then HeaderRead(Terminated, acc, script)
    else if |acc| == BufSize then HeaderRead(BufferFull, acc, script)
    else
      var r := ReadCall(script, BufSize - |acc|);
      if r.err then HeaderRead(ReadFailed, acc + r.data, r.rest)
      else ReadHeader(r.rest, acc + r.data)
  }

  /** The outcome of the whole HTTP dial over a connection that returns `script` to its reads. */
  function HttpDial(script: seq<Chunk>): Outcome {
    var h := ReadHeader(script, []);
    match h.status
    case ReadFailed => Failed(ReadError)
    case BufferFull => Failed(HeaderTooLong)
    case Terminated => if Contains(h.acc, Status200) then Connected else Failed(ProxyConnectError)
  }

  /** The connection to the HTTP proxy, as far as the handshake sees it. */
  class HttpConn {
    const isTcp: bool       // the transport is a TCP connection, so it can be tuned
    const writeOk: bool     // whether a write to the proxy succeeds
    var sent: seq<string>   // what has been written, in order
    var script: seq<Chunk>  // what the remaining Read calls return, in order
    var opts: seq<SockOpt>  // socket options set so far

    constructor (isTcp: bool, writeOk: bool, script: seq<Chunk>)
      ensures this.isTcp == isTcp && this.writeOk == writeOk && this.script == script
      ensures sent == [] && opts == []
    {
      this.isTcp, this.writeOk, this.script := isTcp, writeOk, script;
      sent, opts := [], [];
    }

    method Write(data: string) returns (err: bool)
      modifies this`sent
      ensures err == !writeOk
      ensures sent == if writeOk then old(sent) + [data] else old(sent)
    {
      err := !writeOk;
      if writeOk {
        sent := sent + [data];
      }
    }

    /** Read into `buf[off..]`, the slice `connBuf[totalNum:]` of the source. */
    method Read(buf: array<byte>, off: nat) returns (n: nat, err: bool)
      requires off <= buf.Length
      modifies this`script, buf
      ensures var r := ReadCall(old(script), buf.Length - off);
        n == |r.data| && err == r.err && script == r.rest && buf[..off + n] == old(buf[..off]) + r.data
      ensures buf[off + n..] == old(buf[off + n..])
    {
      if off == buf.Length {
        return 0, false;
      }
      if script == [] {
        return 0, true;
      }
      var c := script[0];
      n := if |c.data| <= buf.Length - off then |c.data| else buf.Length - off;
      forall i | off <= i < off + n {
        buf[i] := c.data[i - off];
      }
      err := c.failed;
      script := script[1..];
    }

    /** The best-effort tuning of the success path; it applies only to a TCP connection. */
    method Tune()
      modifies this`opts
      ensures opts == old(opts) + if isTcp then HttpTuning else []
    {
      if isTcp {
        opts := opts + HttpTuning;
      }
    }
  }

  /**
    The source's read loop: fill `connBuf` from the connection, each read landing at
    `connBuf[totalNum..]`, until the buffered bytes contain "\r\n\r\n". A read error
    ends it, and so does a full buffer (where the source would spin).
  */
  method ReadHeaderInto(conn: HttpConn, connBuf: array<byte>) returns (status: ReadStatus, totalNum: nat)
    requires connBuf.Length == BufSize
    modifies conn`script, connBuf
    ensures var h := ReadHeader(old(conn.script), []);
      status == h.status && totalNum <= BufSize && connBuf[..totalNum] == h.acc && conn.script == h.rest
  {
    totalNum := 0;
    while !Contains(connBuf[..totalNum], Terminator)
      invariant totalNum <= BufSize
      invariant ReadHeader(conn.script, connBuf[..totalNum]) == ReadHeader(old(conn.script), [])
      decreases |conn.script|
    {
      if totalNum == BufSize {
        return BufferFull, totalNum;
      }
      ghost var before, acc := conn.script, connBuf[..totalNum];
      var n, err := conn.Read(connBuf, totalNum);
      totalNum := totalNum + n;
      assert ReadCall(before, BufSize - |acc|) == ReadResult(connBuf[..totalNum][|acc|..], err, conn.script);
      assert connBuf[..totalNum] == acc + connBuf[..totalNum][|acc|..];
      if err {
        return ReadFailed, totalNum;
      }
    }
    return Terminated, totalNum;
  }

  /**
    The handshake over an open connection to the proxy. The result of the write is
    ignored, so the outcome depends only on what the reads return; tuning happens
    only on success.
  */
  method DialHttpProxy(conn: HttpConn, usedAddr: string) returns (r: Outcome)
    modifies conn
    ensures r == HttpDial(old(conn.script))
    ensures conn.script == ReadHeader(old(conn.script), []).rest
    ensures conn.sent == old(conn.sent) + if conn.writeOk then [ConnectRequest(usedAddr)] else []
    ensures conn.opts == old(conn.opts) + if r.Connected? && conn.isTcp then HttpTuning else []
  {
    var _ := conn.Write(ConnectRequest(usedAddr));
    var connBuf := new byte[BufSize];
    var status, totalNum := ReadHeaderInto(conn, connBuf);
    if status == ReadFailed {
      return Failed(ReadError);
    } else if status == BufferFull {
      return Failed(HeaderTooLong);
    }
    if Contains(connBuf[..totalNum], Status200) {
      conn.Tune();
      return Connected;
    }
    return Failed(ProxyConnectError);
  }

  // ---------------------------------------------------------------------------
  // Properties of the handshake

  /**
    A read that fails ends the header read with ReadFailed, whatever has been buffered
    before it, as long as the loop was still reading; the reads after it are left.
  */
  lemma FailedReadEndsHeader(acc: seq<byte>, data: seq<byte>, more: seq<Chunk>)
    requires |acc| < BufSize && !Contains(acc, Terminator)
    ensures var h := ReadHeader([Chunk(data, true)] + more, acc);
      h.status == ReadFailed && h.rest == more
  {
  }

  /** When the header read ends other than with ReadFailed, none of the reads it consumed failed. */
  lemma {:induction false} OnlyGoodReadsConsumed(script: seq<Chunk>, acc: seq<byte>)
    requires |acc| <= BufSize
    ensures var h := ReadHeader(script, acc);
      h.status != ReadFailed ==> forall i :: 0 <= i < |script| - |h.rest| ==> !script[i].failed
    decreases |script|
  {
    if !Contains(acc, Terminator) && |acc| < BufSize && script != [] {
      var r := ReadCall(script, BufSize - |acc|);
      if !r.err {
        var tail := script[1..];
        OnlyGoodReadsConsumed(tail, acc + r.data);
        assert forall i :: 1 <= i < |script| ==> script[i] == tail[i - 1];
      }
    }
  }

  /** When the header read ends with ReadFailed, the last read it consumed failed, or no read was left. */
  lemma {:induction false} ReadFailedAtFailingRead(script: seq<Chunk>, acc: seq<byte>)
    requires |acc| <= BufSize
    ensures var h := ReadHeader(script, acc);
      h.status == ReadFailed ==> h.rest == [] || script[|script| - |h.rest| - 1].failed
    decreases |script|
  {
    if !Contains(acc, Terminator) && |acc| < BufSize && script != [] {
      var r := ReadCall(script, BufSize - |acc|);
      if !r.err {
        ReadFailedAtFailingRead(script[1..], acc + r.data);
      }
    }
  }

  /** A read error fails the dial, even when that read delivered a complete "200" header. */
  lemma FailedReadFailsDial(data: seq<byte>, more: seq<Chunk>)
    ensures HttpDial([Chunk(data, true)] + more) == Failed(ReadError)
  {
  }

  /** A dial that connects consumed no failing read: any read error before the header is complete fails the dial. */
  lemma ConnectedReadsNoFailure(script: seq<Chunk>)
    ensures var h := ReadHeader(script, []);
      HttpDial(script) == Connected ==> forall i :: 0 <= i < |script| - |h.rest| ==> !script[i].failed
  {
    OnlyGoodReadsConsumed(script, []);
  }

  /**
    A response that arrives whole in one successful read decides the dial by itself:
    success exactly when "200" is among those bytes, wherever it is (status line,
    reason phrase, or past the terminator); later reads are never made.
  */
  lemma OneReadResponse(resp: seq<byte>, more: seq<Chunk>)
    requires |resp| <= BufSize && Contains(resp, Terminator)
    ensures HttpDial([Chunk(resp, false)] + more) == if Contains(resp, Status200) then Connected else Failed(ProxyConnectError)
    ensures ReadHeader([Chunk(resp, false)] + more, []).rest == more
  {
    var script := [Chunk(resp, false)] + more;
    assert !Contains([], Terminator);
    assert ReadCall(script, BufSize) == ReadResult(resp, false, more);
    assert [] + resp == resp;
    assert ReadHeader(more, resp) == HeaderRead(Terminated, resp, more);
  }

  /**
    When everything the proxy sends fits in the buffer and no read fails, the header
    read completes exactly when the whole stream contains the terminator; it buffers a
    prefix of the stream, and all of it when the terminator never comes.
  */
  lemma {:induction false} FittingStream(script: seq<Chunk>, acc: seq<byte>)
    requires |acc| + |Stream(script)| <= BufSize
    requires forall i :: 0 <= i < |script| ==> !script[i].failed
    ensures var h := ReadHeader(script, acc);
      && h.acc <= acc + Stream(script)
      && (h.status == Terminated <==> Contains(acc + Stream(script), Terminator))
      && (h.status != Terminated ==> h.acc == acc + Stream(script))
    decreases |script|
  {
    var h := ReadHeader(script, acc);
    if Contains(acc, Terminator) {
      ContainsExtended(acc, Stream(script), Terminator);
    } else if |acc| == BufSize {
      assert acc + Stream(script) == acc;
    } else if script == [] {
      assert acc + Stream(script) == acc;
    } else {
      var c := script[0];
      assert Stream(script) == c.data + Stream(script[1..]);
      var r := ReadCall(script, BufSize - |acc|);
      assert r == ReadResult(c.data, false, script[1..]);
      assert acc + Stream(script) == (acc + c.data) + Stream(script[1..]);
      assert h == ReadHeader(script[1..], acc + c.data);
      FittingStream(script[1..], acc + c.data);
    }
  }

  // ---------------------------------------------------------------------------
  // The loop as the source writes it

  /** Where the source's loop is after some iterations. */
  datatype LoopExit = Running | Exited | Errored

  datatype LoopState = LoopState(exit: LoopExit, acc: seq<byte>, rest: seq<Chunk>)

  /** Where the source's loop stands when the header read of this model has ended with `status`. */
  function LoopExitOf(status: ReadStatus): LoopExit {
    match status
    case Terminated => Exited
    case ReadFailed => Errored
    case BufferFull => Running
  }

  /**
    At most `k` iterations of the source's loop exactly as written: test for the
    terminator, Read into `connBuf[totalNum:]`, add the count, return on error. Nothing
    stops it when the buffer is full; its count still never passes 256.
  */
  function AsWrittenLoop(script: seq<Chunk>, acc: seq<byte>, k: nat): (w: LoopState)
    requires |acc| <= BufSize
    ensures acc <= w.acc && |w.acc| <= BufSize
    decreases k
  {
    if Contains(acc, Terminator) then LoopState(Exited, acc, script)
    else if k == 0 then LoopState(Running, acc, script)
    else
      var r := ReadCall(script, BufSize - |acc|);
      if r.err then LoopState(Errored, acc + r.data, r.rest)
      else AsWrittenLoop(r.rest, acc + r.data, k - 1)
  }

  /**
    Once 256 bytes without the terminator are buffered, every further iteration reads
    into an empty slice, gets nothing and no error, and leaves everything as it was:
    the source's loop never exits and no later read is ever consumed.
  */
  lemma {:induction false} AsWrittenLoopNeverExits(script: seq<Chunk>, acc: seq<byte>, k: nat)
    requires |acc| == BufSize && !Contains(acc, Terminator)
    ensures AsWrittenLoop(script, acc, k) == LoopState(Running, acc, script)
  {
    if k > 0 {
      assert acc + [] == acc;
      AsWrittenLoopNeverExits(script, acc, k - 1);
    }
  }

  /**
    The header read of this model differs from the source's loop only where the source
    hangs: given enough iterations, the source's loop ends the same way with the same
    bytes buffered and the same reads left, except that where ReadHeader reports
    BufferFull the source's loop is still running.
  */
  lemma {:induction false} FixOnlyChangesFullBuffer(script: seq<Chunk>, acc: seq<byte>, k: nat)
    requires |acc| <= BufSize && k > |script|
    ensures var h := ReadHeader(script, acc);
      AsWrittenLoop(script, acc, k) == LoopState(LoopExitOf(h.status), h.acc, h.rest)
    decreases |script|
  {
    if Contains(acc, Terminator) {
    } else if |acc| == BufSize {
      AsWrittenLoopNeverExits(script, acc, k);
    } else {
      var r := ReadCall(script, BufSize - |acc|);
      if !r.err {
        FixOnlyChangesFullBuffer(r.rest, acc + r.data, k - 1);
      }
    }
  }

  /**
    A proxy whose first read delivers 256 or more bytes without "\r\n\r\n" among the
    first 256 (a long header block, say) leaves the source's loop running forever,
    while the corrected header read fails the dial with HeaderTooLong.
  */
  lemma LongHeaderStallsAsWritten(first: seq<byte>, more: seq<Chunk>, k: nat)
    requires |first| >= BufSize && !Contains(first[..BufSize], Terminator)
    ensures AsWrittenLoop([Chunk(first, false)] + more, [], k).exit == Running
    ensures HttpDial([Chunk(first, false)] + more) == Failed(HeaderTooLong)
  {
    var script := [Chunk(first, false)] + more;
    assert !Contains([], Terminator);
    assert ReadCall(script, BufSize) == ReadResult(first[..BufSize], false, more);
    assert [] + first[..BufSize] == first[..BufSize];
    assert ReadHeader(more, first[..BufSize]).status == BufferFull;
    if k > 0 {
      AsWrittenLoopNeverExits(more, first[..BufSize], k - 1);
    }
  }

  // ---------------------------------------------------------------------------
  // Two proxies answering in one read

  /** A sequence without the first element of a non-empty pattern does not contain it. */
  lemma AbsentFirstElement<T>(s: seq<T>, pat: seq<T>)
    requires pat != [] && pat[0] !in s
    ensures !Contains(s, pat)
  {
  }

  /** "HTTP/1.1 200 Connection Established\r\n\r\n" in one read establishes the tunnel. */
  lemma EstablishedResponseConnects(more: seq<Chunk>)
    ensures HttpDial([Chunk(Ascii("HTTP/1.1 200 Connection Established\r\n\r\n"), false)] + more) == Connected
  {
    var resp := Ascii("HTTP/1.1 200 Connection Established\r\n\r\n");
    assert OccursAt(resp, Terminator, 35);
    assert resp[9] == 50 && resp[10] == 48 && resp[11] == 48;
    assert OccursAt(resp, Status200, 9);
    OneReadResponse(resp, more);
  }

  /** "HTTP/1.1 403 Forbidden\r\n\r\n" in one read fails with PROXY CONNECT ERROR. */
  lemma ForbiddenResponseFails(more: seq<Chunk>)
    ensures HttpDial([Chunk(Ascii("HTTP/1.1 403 Forbidden\r\n\r\n"), false)] + more) == Failed(ProxyConnectError)
  {
    var resp := Ascii("HTTP/1.1 403 Forbidden\r\n\r\n");
    assert OccursAt(resp, Terminator, 22);
    AbsentFirstElement(resp, Status200);
    OneReadResponse(resp, more);
  }
}
