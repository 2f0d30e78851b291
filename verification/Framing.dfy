/**
 Length-prefixed messages (net.go) and the writer they go through. `BufWriter` is the buffered writer of the Go
 library with its sticky error; the connection below it may take any part of a write and fail. `ControlWriter` is
 the write side of the control channel (client.go), whose lock serializes whole messages.
 */
module Framing {
  import opened Content

  const MAX_FRAMED_PACKET_SIZE := 65535

  /** Big-endian encoding of a 32-bit length. */
  function PutUint32(n: int): (header: seq<byte>)
    requires 0 <= n < 0x1_0000_0000
    ensures |header| == 4
  {
    [(n / 0x100_0000) as byte, (n / 0x1_0000 % 0x100) as byte, (n / 0x100 % 0x100) as byte, (n % 0x100) as byte]
  }

  function Uint32(header: seq<byte>): (n: int)
    requires |header| == 4
    ensures 0 <= n < 0x1_0000_0000
  {
    header[0] as int * 0x100_0000 + header[1] as int * 0x1_0000 + header[2] as int * 0x100 + header[3] as int
  }

  lemma {:induction false} Uint32RoundTrip(n: int)
    requires 0 <= n < 0x1_0000_0000
    ensures Uint32(PutUint32(n)) == n
  {
    var q := n / 0x100;
    var r := q / 0x100;
    assert n == q * 0x100 + n % 0x100;
    assert q == r * 0x100 + q % 0x100;
    assert r == (r / 0x100) * 0x100 + r % 0x100;
    assert n / 0x1_0000 == r;
    assert n / 0x100_0000 == r / 0x100;
  }

  /** What one message looks like on the wire. */
  function Frame(msg: seq<byte>): (frame: seq<byte>)
    requires |msg| <= MAX_FRAMED_PACKET_SIZE
  {
    PutUint32(|msg|) + msg
  }

  predicate Sendable(msgs: seq<seq<byte>>) {
    forall i :: 0 <= i < |msgs| ==> |msgs[i]| <= MAX_FRAMED_PACKET_SIZE
  }

  function Frames(msgs: seq<seq<byte>>): (wire: seq<byte>)
    requires Sendable(msgs)
  {
    if msgs == [] then [] else Frame(msgs[0]) + Frames(msgs[1..])
  }

  // ---------------------------------------------------------------- reading

  /** End of the stream between messages, in the middle of one, or a length over the limit. */
  datatype ReadError = EndOfStream | Truncated | TooLarge

  datatype ReadOutcome = Message(msg: seq<byte>, rest: seq<byte>) | Stopped(error: ReadError)

  /** readMessage on the bytes that are still to come: two full reads, the header and the payload. */
  method ReadMessage(stream: seq<byte>) returns (outcome: ReadOutcome)
    ensures outcome == ParseFrame(stream)
    ensures forall msg, rest ::
              |msg| <= MAX_FRAMED_PACKET_SIZE && stream == Frame(msg) + rest ==> outcome == Message(msg, rest)
  {
    forall msg, rest | |msg| <= MAX_FRAMED_PACKET_SIZE && stream == Frame(msg) + rest
      ensures ParseFrame(stream) == Message(msg, rest)
    {
      FrameRoundTrip(msg, rest);
    }
    if |stream| < 4 {
      return Stopped(if stream == [] then EndOfStream else Truncated);
    }
    var lengthBytes, rest := stream[..4], stream[4..];
    var length := Uint32(lengthBytes);
    if length > MAX_FRAMED_PACKET_SIZE {
      return Stopped(TooLarge);
    }
    if |rest| < length {
      return Stopped(if rest == [] then EndOfStream else Truncated);
    }
    outcome := Message(rest[..length], rest[length..]);
  }

  /** The reference reading of one message. io.ReadFull reports a plain end of stream whenever it got no byte
      at all, so a stream that stops right after a header looks like one that stops between messages. */
  function ParseFrame(stream: seq<byte>): (outcome: ReadOutcome) {
    if |stream| < 4 then Stopped(if stream == [] then EndOfStream else Truncated)
    else
      var length := Uint32(stream[..4]);
      if length > MAX_FRAMED_PACKET_SIZE then Stopped(TooLarge)
      else if |stream| - 4 < length then Stopped(if |stream| == 4 then EndOfStream else Truncated)
      else Message(stream[4..4 + length], stream[4 + length..])
  }

  /** Reading until the stream stops: the messages, and why it stopped. */
  function Parse(stream: seq<byte>): (r: (seq<seq<byte>>, ReadError))
    decreases |stream|
  {
    match ParseFrame(stream)
    case Stopped(e) => ([], e)
    case Message(msg, rest) => var (more, e) := Parse(rest); ([msg] + more, e)
  }

  /** A frame is read back as its message, whatever follows it. */
  lemma {:induction false} FrameRoundTrip(msg: seq<byte>, rest: seq<byte>)
    requires |msg| <= MAX_FRAMED_PACKET_SIZE
    ensures ParseFrame(Frame(msg) + rest) == Message(msg, rest)
  {
    var stream := Frame(msg) + rest;
    Uint32RoundTrip(|msg|);
    assert stream[..4] == PutUint32(|msg|);
    assert stream[4..4 + |msg|] == msg;
    assert stream[4 + |msg|..] == rest;
  }

  /** A frame that was cut off anywhere before its end yields no message. */
  lemma {:induction false} CutFrame(msg: seq<byte>, n: nat)
    requires |msg| <= MAX_FRAMED_PACKET_SIZE && n < |Frame(msg)|
    ensures ParseFrame(Frame(msg)[..n]).Stopped? && ParseFrame(Frame(msg)[..n]).error != TooLarge
  {
    if n >= 4 {
      Uint32RoundTrip(|msg|);
      assert Frame(msg)[..n][..4] == PutUint32(|msg|);
    }
  }

  lemma {:induction false} ParseMore(msg: seq<byte>, rest: seq<byte>)
    requires |msg| <= MAX_FRAMED_PACKET_SIZE
    ensures Parse(Frame(msg) + rest) == ([msg] + Parse(rest).0, Parse(rest).1)
  {
    FrameRoundTrip(msg, rest);
  }

  /** Reading a wire of whole frames, followed by a part of one more, returns exactly the messages of the whole
      frames, in order, and the last one only if it is complete. */
  lemma {:induction false} WireRoundTrip(msgs: seq<seq<byte>>, last: seq<byte>, n: nat)
    requires Sendable(msgs) && |last| <= MAX_FRAMED_PACKET_SIZE && n <= |Frame(last)|
    ensures Parse(Frames(msgs) + Frame(last)[..n]).0 == if n == |Frame(last)| then msgs + [last] else msgs
    ensures Parse(Frames(msgs) + Frame(last)[..n]).1 != TooLarge
    decreases |msgs|
  {
    hide Parse, ParseFrame, Frame;
    var part := Frame(last)[..n];
    if msgs == [] {
      assert [] + part == part;
      LastFrame(last, n);
    } else {
      WireRoundTrip(msgs[1..], last, n);
      var rest := Frames(msgs[1..]) + part;
      assert Frames(msgs) + part == Frame(msgs[0]) + rest;
      ParseMore(msgs[0], rest);
      assert [msgs[0]] + msgs[1..] == msgs;
      assert [msgs[0]] + (msgs[1..] + [last]) == msgs + [last];
    }
  }

  lemma {:induction false} LastFrame(last: seq<byte>, n: nat)
    requires |last| <= MAX_FRAMED_PACKET_SIZE && n <= |Frame(last)|
    ensures Parse(Frame(last)[..n]).0 == if n == |Frame(last)| then [last] else []
    ensures Parse(Frame(last)[..n]).1 != TooLarge
  {
    if n < |Frame(last)| {
      CutFrame(last, n);
    } else {
      assert Frame(last)[..n] == Frame(last) + [];
      ParseMore(last, []);
      assert Parse([]) == ([], EndOfStream);
    }
  }

  lemma {:induction false} FramesMore(msgs: seq<seq<byte>>, msg: seq<byte>)
    requires Sendable(msgs) && |msg| <= MAX_FRAMED_PACKET_SIZE
    ensures Frames(msgs + [msg]) == Frames(msgs) + Frame(msg)
    decreases |msgs|
  {
    hide Frame;
    if msgs == [] {
      assert [msg][1..] == [] && [] + [msg] == [msg];
      assert Frames([msg]) == Frame(msg) + Frames([]);
    } else {
      assert (msgs + [msg])[1..] == msgs[1..] + [msg];
      FramesMore(msgs[1..], msg);
    }
  }

  // ---------------------------------------------------------------- the buffered writer

  /** bufio.Writer over a connection. `wire` is what the connection has taken so far. */
  class BufWriter {
    const size: nat
    const healthy: bool
    var wire: seq<byte>
    var buf: seq<byte>
    var err: bool

    constructor (size: nat, healthy: bool)
      requires size > 0
      ensures wire == [] && buf == [] && !err && this.size == size && this.healthy == healthy && Valid()
    {
      this.size, this.healthy, wire, buf, err := size, healthy, [], [], false;
    }

    predicate Valid()
      reads this
    {
      size > 0 && |buf| <= size
    }

    /** One write of the connection: it takes a prefix, and reports an error when it did not take everything,
        or anyway. A healthy connection takes everything. */
    method ConnWrite(p: seq<byte>) returns (n: nat, failed: bool)
      modifies this`wire
      ensures n <= |p| && wire == old(wire) + p[..n]
      ensures n < |p| ==> failed
      ensures healthy ==> !failed
    {
      n :| 0 <= n <= |p| && (healthy ==> n == |p|);
      failed :| healthy ==> !failed;
      if n < |p| {
        failed := true;
      }
      wire := wire + p[..n];
    }

    /** Flush: without an error everything buffered is on the wire; with one, some part of it, and the error
        stays. */
    method Flush() returns (failed: bool)
      requires Valid()
      modifies this
      ensures Valid() && failed == err
      ensures !err ==> buf == [] && wire == old(wire + buf)
      ensures old(wire) <= wire && (err ==> wire <= old(wire + buf))
      ensures healthy && !old(err) ==> !err
      ensures old(err) ==> err && wire == old(wire)
    {
      if err {
        return true;
      }
      if buf == [] {
        assert wire + buf == wire;
        return false;
      }
      var n;
      n, failed := ConnWrite(buf);
      assert buf[..n] + buf[n..] == buf;
      if failed {
        buf := buf[n..];
        err := true;
        return;
      }
      buf := [];
    }

    /** One turn of the loop of Write, for bytes that do not fit: straight to the connection when nothing is
        buffered, and through a full buffer otherwise. */
    method Spill(p: seq<byte>) returns (rest: seq<byte>)
      requires Valid() && !err && |p| > size - |buf|
      modifies this
      ensures Valid() && old(wire) <= wire
      ensures !err ==> wire + buf + rest == old(wire + buf) + p
      ensures |rest| < |p| || err || (rest == p && |buf| < |old(buf)|)
      ensures err ==> wire <= old(wire + buf) + p
      ensures healthy ==> !err
    {
      if buf == [] {
        var n;
        n, err := ConnWrite(p);
        assert p[..n] + p[n..] == p;
        rest := p[n..];
      } else {
        var n := size - |buf|;
        assert p[..n] + p[n..] == p;
        buf := buf + p[..n];
        rest := p[n..];
        var _ := Flush();
      }
    }

    /** Write: without an error the bytes follow what was written before, on the wire or in the buffer. */
    method Write(p: seq<byte>) returns (failed: bool)
      requires Valid()
      modifies this
      ensures Valid() && failed == err
      ensures !err ==> wire + buf == old(wire + buf) + p
      ensures old(wire) <= wire && (err ==> wire <= old(wire + buf) + p)
      ensures healthy && !old(err) ==> !err
      ensures old(err) ==> err && wire == old(wire)
    {
      var rest := p;
      ghost var goal := wire + buf + p;
      while |rest| > size - |buf| && !err
        invariant Valid() && old(wire) <= wire
        invariant !err ==> !old(err) && wire + buf + rest == goal
        invariant err ==> wire <= goal
        invariant healthy && !old(err) ==> !err
        invariant old(err) ==> err && wire == old(wire)
        decreases if err then 0 else 1, |rest|, |buf|
      {
        rest := Spill(rest);
      }
      if err {
        return true;
      }
      assert wire + (buf + rest) == wire + buf + rest;
      buf := buf + rest;
      failed := false;
    }
  }

  /** writeMessage: on a clean writer, success puts one whole frame on the wire; failure leaves a prefix of
      it and a writer that never writes again. A message over the limit writes nothing. */
  method WriteMessage(w: BufWriter, msg: seq<byte>) returns (failed: bool)
    requires w.Valid() && (w.err || w.buf == [])
    modifies w
    ensures w.Valid() && (w.err || w.buf == [])
    ensures |msg| > MAX_FRAMED_PACKET_SIZE ==> failed && w.wire == old(w.wire) && w.err == old(w.err)
    ensures |msg| <= MAX_FRAMED_PACKET_SIZE ==> failed == w.err
    ensures |msg| <= MAX_FRAMED_PACKET_SIZE && !w.err ==> w.wire == old(w.wire) + Frame(msg)
    ensures |msg| <= MAX_FRAMED_PACKET_SIZE && w.err ==> old(w.wire) <= w.wire <= old(w.wire) + Frame(msg)
    ensures old(w.err) ==> failed && w.err && w.wire == old(w.wire)
    ensures w.healthy && !old(w.err) ==> !w.err
  {
    if |msg| > MAX_FRAMED_PACKET_SIZE {
      return true;
    }
    assert !w.err ==> w.wire + w.buf == w.wire;
    ghost var start := w.wire;
    var header := PutUint32(|msg|);
    failed := w.Write(header);
    assert start + header + msg == start + Frame(msg);
    if failed {
      PrefixOfMore(w.wire, start + header, msg);
      return;
    }
    failed := w.Write(msg);
    if failed {
      return;
    }
    failed := w.Flush();
  }

  lemma {:induction false} PrefixOfMore(a: seq<byte>, b: seq<byte>, c: seq<byte>)
    requires a <= b
    ensures a <= b + c
  {
  }

  // ---------------------------------------------------------------- the control channel's write side

  /** The write side of the control channel: writers take the write lock in some order, may be cancelled before or
      after getting it, and may fail while writing. `sent` lists the messages written without error, in lock
      order; after the first failed write, `cut` is the message it was writing. */
  class ControlWriter {
    const w: BufWriter
    ghost var sent: seq<seq<byte>>
    ghost var cut: seq<byte>
    ghost var taken: nat

    constructor (w: BufWriter)
      requires w.Valid() && w.wire == [] && w.buf == [] && !w.err
      ensures Valid() && this.w == w && sent == []
    {
      this.w, sent, cut, taken := w, [], [], 0;
    }

    ghost predicate Valid()
      reads this, w
    {
      && w.Valid() && Sendable(sent)
      && |cut| <= MAX_FRAMED_PACKET_SIZE && taken <= |Frame(cut)|
      && (!w.err ==> w.buf == [] && w.wire == Frames(sent))
      && (w.err ==> w.wire == Frames(sent) + Frame(cut)[..taken])
    }

    /** writePbMessageContext. A writer that gives up on the lock, is cancelled right after getting it or cannot
        arm its deadline (`early`) writes nothing; otherwise its message is written, and it still reports an
        error when it was cancelled meanwhile (`late`). */
    method WriteContext(msg: seq<byte>, early: bool, late: bool) returns (failed: bool)
      requires Valid()
      modifies this, w
      ensures Valid()
      ensures sent == old(sent) || (sent == old(sent) + [msg] && |msg| <= MAX_FRAMED_PACKET_SIZE)
      ensures !failed ==> sent == old(sent) + [msg]
      ensures early ==> failed && w.wire == old(w.wire) && sent == old(sent)
      ensures w.healthy && !old(w.err) && !early && |msg| <= MAX_FRAMED_PACKET_SIZE ==>
                failed == late && sent == old(sent) + [msg]
      ensures old(w.err) ==> failed && w.err && w.wire == old(w.wire) && sent == old(sent)
      ensures old(w.wire) <= w.wire
    {
      if early {
        return true;
      }
      ghost var broken := w.err;
      failed := WriteMessage(w, msg);
      if |msg| <= MAX_FRAMED_PACKET_SIZE {
        if !w.err {
          FramesMore(sent, msg);
          sent := sent + [msg];
        } else if !broken {
          cut := msg;
          taken := |w.wire| - |Frames(sent)|;
          CutAt(w.wire, Frames(sent), Frame(msg));
        }
      }
      if late {
        failed := true;
      }
    }
  }

  lemma {:induction false} CutAt(wire: seq<byte>, start: seq<byte>, frame: seq<byte>)
    requires start <= wire <= start + frame
    ensures |wire| - |start| <= |frame| && wire == start + frame[..|wire| - |start|]
  {
  }

  /** Whatever was written, cancelled or broken off: the peer reads exactly the messages that were sent, in
      lock order, then possibly the one whose write failed if all of it got out, and nothing else. */
  lemma {:induction false} PeerReadsWhatWasSent(c: ControlWriter)
    requires c.Valid()
    ensures Parse(c.w.wire).0 == c.sent || (c.w.err && Parse(c.w.wire).0 == c.sent + [c.cut])
    ensures Parse(c.w.wire).1 != TooLarge
  {
    hide Parse, Frame, Frames;
    if c.w.err {
      WireRoundTrip(c.sent, c.cut, c.taken);
    } else {
      assert Frame(c.cut)[..0] == [] && Frames(c.sent) + [] == Frames(c.sent);
      FrameNotEmpty(c.cut);
      WireRoundTrip(c.sent, c.cut, 0);
    }
  }

  lemma {:induction false} FrameNotEmpty(msg: seq<byte>)
    requires |msg| <= MAX_FRAMED_PACKET_SIZE
    ensures |Frame(msg)| > 0
  {
  }
}
