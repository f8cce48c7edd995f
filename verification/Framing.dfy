/** Messages as frames on a byte stream: a 4-byte big-endian length, then the bytes. */
module Framing {
  import opened Options

  type Byte = x: nat | x < 256

  /** How much one `Read` is given by the connection: at least something. */
  type Amount = x: nat | x >= 1 witness 1

  const MAX_MESSAGE_SIZE: nat := 8 * 1024 * 1024
  const UINT32: nat := 0x1_0000_0000

  datatype RecvError = PartialHeader | TooBig(size: nat)

  /** What one call returns; `Nothing` is no message, no error, and not closed. */
  datatype Outcome = Closed | Failed(error: RecvError) | Nothing | Message(bytes: seq<Byte>)

  /** Four bytes, the most significant first. */
  function Header(n: nat): (h: seq<Byte>)
    ensures |h| == 4
    ensures n < 0x1_0000_0000 ==> h[0] as nat * 0x100_0000 + h[1] as nat * 0x1_0000 + h[2] as nat * 0x100 + h[3] as nat == n
  {
    FourDigits(n);
    [n / 0x100_0000 % 256, n / 0x1_0000 % 256, n / 0x100 % 256, n % 256]
  }

  lemma FourDigits(n: nat)
    ensures n < UINT32 ==>
              n / 0x100_0000 % 256 * 0x100_0000 + n / 0x1_0000 % 256 * 0x1_0000 + n / 0x100 % 256 * 0x100 + n % 256 == n
  {
    Digits(n);
  }

  function Length(h: seq<Byte>): (n: nat)
    requires |h| == 4
    ensures n == h[0] as nat * 0x100_0000 + h[1] as nat * 0x1_0000 + h[2] as nat * 0x100 + h[3] as nat
  {
    ((h[0] as nat * 256 + h[1] as nat) * 256 + h[2] as nat) * 256 + h[3] as nat
  }

  lemma Digits(n: nat)
    ensures n / 0x1_0000 == n / 256 / 256 && n / 0x100_0000 == n / 256 / 256 / 256
  {
  }

  lemma LastDigit(n: nat, m: nat)
    requires m == 0x100 || m == 0x1_0000 || m == 0x100_0000
    ensures (n / 256 % m) * 256 + n % 256 == n % (256 * m)
  {
  }

  /** The length is cut to 32 bits. */
  lemma HeaderLength(n: nat)
    ensures Length(Header(n)) == n % UINT32
  {
    Digits(n);
    LastDigit(n / 256 / 256, 0x100);
    LastDigit(n / 256, 0x1_0000);
    LastDigit(n, 0x100_0000);
  }

  function Frame(msg: seq<Byte>): seq<Byte> { Header(|msg|) + msg }

  /** The length in four bytes, the most significant first, and then the message. */
  ghost predicate OnTheWire(bytes: seq<Byte>, msg: seq<Byte>) {
    && |bytes| == 4 + |msg|
    && bytes[0] as nat * 0x100_0000 + bytes[1] as nat * 0x1_0000 + bytes[2] as nat * 0x100 + bytes[3] as nat == |msg|
    && bytes[4..] == msg
  }

  function Frames(msgs: seq<seq<Byte>>): seq<Byte> {
    if msgs == [] then [] else Frame(msgs[0]) + Frames(msgs[1..])
  }

  function Min(a: nat, b: nat): nat { if a < b then a else b }

  function Zeros(n: nat): seq<Byte> { seq(n, _ => 0) }

  /** The body is read once, into a zeroed buffer. */
  function RecvBody(rest: seq<Byte>, n: nat, got: Amount): (Outcome, seq<Byte>) {
    if n == 0 then (Message([]), rest)
    else if rest == [] then (Nothing, [])
    else
      var g := Min(got, Min(n, |rest|));
      (Message(rest[..g] + Zeros(n - g)), rest[g..])
  }

  /** One receive from a stream that ends where the peer closed it. */
  function Recv(stream: seq<Byte>, got: Amount): (Outcome, seq<Byte>) {
    if stream == [] then (Closed, [])
    else if |stream| < 4 then (Failed(PartialHeader), [])
    else
      var n := Length(stream[..4]);
      if n > MAX_MESSAGE_SIZE then (Failed(TooBig(n)), stream[4..]) else RecvBody(stream[4..], n, got)
  }

  function RecvAll(stream: seq<Byte>, gots: seq<Amount>): seq<Outcome>
    decreases |gots|
  {
    if gots == [] then []
    else
      var (o, rest) := Recv(stream, gots[0]);
      [o] + RecvAll(rest, gots[1..])
  }

  /** What the peer would have us receive: each message, then the end. */
  function Expected(msgs: seq<seq<Byte>>): seq<Outcome> {
    if msgs == [] then [Closed] else [Message(msgs[0])] + Expected(msgs[1..])
  }

  lemma FrameParts(msg: seq<Byte>, rest: seq<Byte>)
    ensures var stream := Frame(msg) + rest;
            |stream| >= 4 && stream[..4] == Header(|msg|) && stream[4..] == msg + rest
  {
  }

  lemma FrameRecv(msg: seq<Byte>, rest: seq<Byte>, got: Amount)
    requires |msg| < UINT32
    ensures Recv(Frame(msg) + rest, got) ==
            if |msg| > MAX_MESSAGE_SIZE then (Failed(TooBig(|msg|)), msg + rest) else RecvBody(msg + rest, |msg|, got)
  {
    FrameParts(msg, rest);
    HeaderLength(|msg|);
    SmallLength(|msg|);
  }

  lemma SmallLength(n: nat)
    requires n < UINT32
    ensures n % UINT32 == n
  {
  }

  /**
   * What is received of four bytes and what follows them, byte by byte: a length
   * over 8 MiB is refused; else up to as many bytes as the read is given are
   * taken, and the rest of the message reads as zeros.
   */
  lemma ReceivedFrom(b0: Byte, b1: Byte, b2: Byte, b3: Byte, body: seq<Byte>, got: Amount)
    ensures var n := b0 as nat * 0x100_0000 + b1 as nat * 0x1_0000 + b2 as nat * 0x100 + b3 as nat;
            var (o, rest) := Recv([b0, b1, b2, b3] + body, got);
            if n > 8388608 then o == Failed(TooBig(n)) && rest == body
            else if n == 0 then o == Message([]) && rest == body
            else if body == [] then o == Nothing && rest == []
            else
              exists g: nat ::
                && g <= n && g <= got && g <= |body| && (g == n || g == got || g == |body|)
                && o.Message? && |o.bytes| == n && rest == body[g..]
                && forall i :: 0 <= i < n ==> o.bytes[i] == if i < g then body[i] else 0
  {
    var stream := [b0, b1, b2, b3] + body;
    assert stream[..4] == [b0, b1, b2, b3] && stream[4..] == body;
    var n := Length(stream[..4]);
    if 0 < n <= 8388608 && body != [] {
      var g := Min(got, Min(n, |body|));
      assert RecvBody(body, n, got) == (Message(body[..g] + Zeros(n - g)), body[g..]);
    }
  }

  lemma WholeBody(msg: seq<Byte>, rest: seq<Byte>, got: Amount)
    requires |msg| <= got
    ensures RecvBody(msg + rest, |msg|, got) == (Message(msg), rest)
  {
    assert (msg + rest)[..|msg|] == msg && (msg + rest)[|msg|..] == rest;
    assert msg + Zeros(0) == msg;
    assert msg == [] ==> msg + rest == rest;
  }

  lemma WholeReceived(msg: seq<Byte>, rest: seq<Byte>, got: Amount)
    requires |msg| <= MAX_MESSAGE_SIZE && |msg| <= got
    ensures Recv(Frame(msg) + rest, got) == (Message(msg), rest)
  {
    FrameRecv(msg, rest, got);
    WholeBody(msg, rest, got);
  }

  lemma PartLeaves(msg: seq<Byte>, rest: seq<Byte>, got: Amount)
    requires got < |msg| <= MAX_MESSAGE_SIZE
    ensures |Recv(Frame(msg) + rest, got).1| > |rest|
  {
    FrameRecv(msg, rest, got);
  }

  lemma LongRefused(msg: seq<Byte>, rest: seq<Byte>, got: Amount)
    requires |msg| > MAX_MESSAGE_SIZE
    ensures Recv(Frame(msg) + rest, got).0 != Message(msg)
  {
    FrameParts(msg, rest);
    HeaderLength(|msg|);
  }

  /** A frame is received as it was sent if and only if the message is not too long and the read fills its buffer. */
  lemma FrameReceived(msg: seq<Byte>, rest: seq<Byte>, got: Amount)
    ensures Recv(Frame(msg) + rest, got) == (Message(msg), rest) <==> |msg| <= 8388608 && |msg| <= got
  {
    if |msg| > MAX_MESSAGE_SIZE {
      LongRefused(msg, rest, got);
    } else if got < |msg| {
      PartLeaves(msg, rest, got);
    } else {
      WholeReceived(msg, rest, got);
    }
  }

  /** An oversize message is refused by its length alone, and its bytes are then taken for frames. */
  lemma OversizeLeavesItsBytes(msg: seq<Byte>, rest: seq<Byte>, got: Amount)
    requires MAX_MESSAGE_SIZE < |msg| < UINT32
    ensures Recv(Frame(msg) + rest, got) == (Failed(TooBig(|msg|)), msg + rest)
  {
    FrameRecv(msg, rest, got);
  }

  // ------------------------------------------------------------ whole streams

  ghost predicate Small(msgs: seq<seq<Byte>>) {
    forall i :: 0 <= i < |msgs| ==> |msgs[i]| <= MAX_MESSAGE_SIZE
  }

  ghost predicate Filled(msgs: seq<seq<Byte>>, gots: seq<Amount>)
    requires |msgs| <= |gots|
  {
    forall i :: 0 <= i < |msgs| ==> |msgs[i]| <= gots[i]
  }

  lemma {:induction false} FilledReceives(msgs: seq<seq<Byte>>, gots: seq<Amount>)
    requires |gots| == |msgs| + 1 && Small(msgs) && Filled(msgs, gots)
    ensures RecvAll(Frames(msgs), gots) == Expected(msgs)
    decreases |msgs|
  {
    if msgs == [] {
      assert gots[1..] == [];
    } else {
      WholeReceived(msgs[0], Frames(msgs[1..]), gots[0]);
      FilledReceives(msgs[1..], gots[1..]);
    }
  }

  function Total(msgs: seq<seq<Byte>>): nat {
    if msgs == [] then 0 else 4 + |msgs[0]| + Total(msgs[1..])
  }

  lemma {:induction false} FramesTotal(msgs: seq<seq<Byte>>)
    ensures |Frames(msgs)| == Total(msgs)
  {
    if msgs != [] {
      FramesTotal(msgs[1..]);
    }
  }

  /** Receiving a message takes its length field and what the read gave, never more than the message. */
  lemma Consumed(stream: seq<Byte>, got: Amount, msg: seq<Byte>)
    requires Recv(stream, got).0 == Message(msg)
    ensures var rest := Recv(stream, got).1;
            |stream| <= 4 + |msg| + |rest| && (|stream| == 4 + |msg| + |rest| ==> |msg| <= got)
  {
  }

  lemma {:induction false} ExpectedConsumes(stream: seq<Byte>, msgs: seq<seq<Byte>>, gots: seq<Amount>)
    requires |gots| == |msgs| + 1 && RecvAll(stream, gots) == Expected(msgs)
    ensures |stream| <= Total(msgs) && (|stream| == Total(msgs) ==> Filled(msgs, gots))
    decreases |msgs|
  {
    var (o, rest) := Recv(stream, gots[0]);
    assert RecvAll(stream, gots)[0] == o == Expected(msgs)[0];
    if msgs != [] {
      assert RecvAll(stream, gots)[1..] == RecvAll(rest, gots[1..]);
      assert Expected(msgs)[1..] == Expected(msgs[1..]);
      Consumed(stream, gots[0], msgs[0]);
      ExpectedConsumes(rest, msgs[1..], gots[1..]);
      if |stream| == Total(msgs) {
        forall i | 0 <= i < |msgs|
          ensures |msgs[i]| <= gots[i]
        {
          if i > 0 {
            assert |msgs[1..][i - 1]| <= gots[1..][i - 1];
          }
        }
      }
    }
  }

  /**
   * The round trip, exactly: from the frames of messages of at most 8 MiB each,
   * receiving returns those messages and then reports the end, if and only if
   * each body read fills its buffer. One short read is enough to break it, even
   * when the missing bytes happen to be the zeros left in the buffer.
   */
  lemma RoundTrip(msgs: seq<seq<Byte>>, gots: seq<Amount>)
    requires |gots| == |msgs| + 1 && Small(msgs)
    ensures RecvAll(Frames(msgs), gots) == Expected(msgs) <==> Filled(msgs, gots)
  {
    if Filled(msgs, gots) {
      FilledReceives(msgs, gots);
    }
    if RecvAll(Frames(msgs), gots) == Expected(msgs) {
      FramesTotal(msgs);
      ExpectedConsumes(Frames(msgs), msgs, gots);
    }
  }

  // -------------------------------------------------------------- connections

  /** Our end of a connection. */
  class Connection {
    var written: seq<Byte>
    var stream: seq<Byte>   // what the peer sent before closing, not yet read

    constructor (stream: seq<Byte>)
      ensures this.stream == stream && written == []
    {
      this.stream, written := stream, [];
    }

    /** The length, as a uint32, and the bytes go into one buffer and out in one write. */
    method SendRawMessage(msg: seq<Byte>)
      modifies this`written
      ensures written == old(written) + Frame(msg)
      ensures |msg| < 0x1_0000_0000 ==> OnTheWire(written[|old(written)|..], msg)
    {
      var buf: seq<Byte> := Header(|msg|);
      buf := buf + msg;
      written := written + buf;
    }

    /** `io.ReadFull` into 4 bytes; `None` when the stream ends before the first, or before the last. */
    method ReadHeader() returns (h: Option<seq<Byte>>, atEnd: bool)
      modifies this`stream
      ensures atEnd <==> old(stream) == []
      ensures h == if |old(stream)| < 4 then None else Some(old(stream)[..4])
      ensures stream == if |old(stream)| < 4 then [] else old(stream)[4..]
    {
      atEnd := stream == [];
      if |stream| < 4 {
        h, stream := None, [];
      } else {
        h, stream := Some(stream[..4]), stream[4..];
      }
    }

    /** One `Read`: up to `got` bytes into the buffer; an empty buffer is full at once. */
    method Read(buf: array<Byte>, got: Amount) returns (eof: bool)
      modifies this`stream, buf
      ensures eof <==> old(stream) == [] && buf.Length > 0
      ensures var g := Min(got, Min(buf.Length, |old(stream)|));
              buf[..] == old(stream)[..g] + old(buf[..])[g..] && stream == old(stream)[g..]
    {
      eof := |stream| == 0 && buf.Length > 0;
      var g := Min(got, Min(buf.Length, |stream|));
      for i := 0 to g
        invariant stream == old(stream)
        invariant forall j :: 0 <= j < i ==> buf[j] == stream[j]
        invariant forall j :: i <= j < buf.Length ==> buf[j] == old(buf[j])
      {
        buf[i] := stream[i];
      }
      stream := stream[g..];
    }

    method RecvMessage(got: Amount) returns (o: Outcome)
      modifies this`stream
      ensures |old(stream)| < 4 ==> stream == [] && o == if old(stream) == [] then Closed else Failed(PartialHeader)
      ensures (o, stream) == Recv(old(stream), got)
    {
      var h, atEnd := ReadHeader();
      if h.None? {
        return if atEnd then Closed else Failed(PartialHeader);
      }
      var n := Length(h.value);
      if n > MAX_MESSAGE_SIZE {
        return Failed(TooBig(n));
      }
      var buf := new Byte[n](_ => 0);
      assert forall g :: 0 <= g <= n ==> buf[..][g..] == Zeros(n - g);
      var eof := Read(buf, got);
      if eof {
        return Nothing;  // the end of file has been wrapped in an error by the time it is looked for
      }
      return Message(buf[..]);
    }
  }
}
