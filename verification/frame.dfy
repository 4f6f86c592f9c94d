/** Length-prefixed frames and the choice of protocol (engine/src/protocol/mod.rs:44-59,
    engine/src/server/connection.rs:36-149). */
module Frames {

  type Byte = x: int | 0 <= x < 256

  const U32 := 0x1_0000_0000
  const MAX_MESSAGE := 16 * 1024 * 1024

  function ToBigEndian(n: nat): (b: seq<Byte>)
    requires n < U32
    ensures |b| == 4
  {
    [n / 0x100_0000, n / 0x1_0000 % 256, n / 256 % 256, n % 256]
  }

  function FromBigEndian(b: seq<Byte>): (n: nat)
    requires |b| == 4
    ensures n < U32
  {
    (b[0] as int) * 0x100_0000 + (b[1] as int) * 0x1_0000 + (b[2] as int) * 256 + b[3] as int
  }

  lemma BigEndianDecodes(n: nat)
    requires n < U32
    ensures FromBigEndian(ToBigEndian(n)) == n
  {
    var q, r, s := n / 256, n / 0x1_0000, n / 0x100_0000;
    assert n == q * 256 + n % 256 && q == r * 256 + q % 256 && r == s * 256 + r % 256;
  }

  lemma BigEndianEncodes(b: seq<Byte>)
    requires |b| == 4
    ensures ToBigEndian(FromBigEndian(b)) == b
  {
    var m, b0: int, b1: int, b2: int, b3: int := FromBigEndian(b), b[0], b[1], b[2], b[3];
    assert m == b0 * 0x100_0000 + b1 * 0x1_0000 + b2 * 256 + b3;
    assert m / 0x100_0000 == b0;
    assert m / 0x1_0000 == b0 * 256 + b1;
    assert m / 256 == b0 * 0x1_0000 + b1 * 256 + b2;
  }

  /** The length is cast to 32 bits. */
  function Frame(data: seq<Byte>): (frame: seq<Byte>)
    ensures |frame| == 4 + |data| && frame[4..] == data
  {
    ToBigEndian(|data| % U32) + data
  }

  /** A frame at the front of a stream. */
  lemma FrameLeads(data: seq<Byte>, tail: seq<Byte>)
    ensures var stream := Frame(data) + tail;
            && |stream| == 4 + |data| + |tail|
            && FromBigEndian(stream[..4]) == |data| % U32
            && stream[4..4 + |data|] == data && stream[4 + |data|..] == tail
  {
    var stream := Frame(data) + tail;
    BigEndianDecodes(|data| % U32);
    assert stream[..4] == ToBigEndian(|data| % U32);
  }

  /** A message cut out of a stream is framed by what stood before it. */
  lemma FrameRestores(stream: seq<Byte>)
    requires |stream| >= 4 && |stream| >= 4 + FromBigEndian(stream[..4])
    ensures var len := FromBigEndian(stream[..4]);
            stream == Frame(stream[4..4 + len]) + stream[4 + len..]
  {
    BigEndianEncodes(stream[..4]);
  }

  /** `create_binary_frame` */
  method CreateBinaryFrame(data: seq<Byte>) returns (frame: seq<Byte>)
    ensures frame == Frame(data)
  {
    var len := |data| % U32;
    frame := [];
    frame := frame + ToBigEndian(len);
    frame := frame + data;
  }

  // ---- The read loop ----

  datatype End =
    | Closed       // fewer than four bytes left: the peer is done
    | TooLarge     // a length over the limit: the connection is closed with an error
    | Truncated    // the stream ends inside a message: an error

  datatype Decoded = Decoded(messages: seq<seq<Byte>>, end: End)

  function Decode(stream: seq<Byte>): Decoded
    decreases |stream|
  {
    if |stream| < 4 then Decoded([], Closed)
    else
      var len := FromBigEndian(stream[..4]);
      if len > MAX_MESSAGE then Decoded([], TooLarge)
      else if |stream| < 4 + len then Decoded([], Truncated)
      else
        var rest := Decode(stream[4 + len..]);
        Decoded([stream[4..4 + len]] + rest.messages, rest.end)
  }

  function DecodeFrom(stream: seq<Byte>, pos: nat): Decoded
    requires pos <= |stream|
  {
    Decode(stream[pos..])
  }

  function LengthAt(stream: seq<Byte>, pos: nat): nat
    requires pos + 4 <= |stream|
  {
    FromBigEndian(stream[pos..][..4])
  }

  lemma DecodeFirst(stream: seq<Byte>, pos: nat)
    requires pos + 4 <= |stream|
    ensures var len := LengthAt(stream, pos);
            if len > MAX_MESSAGE then DecodeFrom(stream, pos) == Decoded([], TooLarge)
            else if |stream| < pos + 4 + len then DecodeFrom(stream, pos) == Decoded([], Truncated)
            else var rest := DecodeFrom(stream, pos + 4 + len);
                 DecodeFrom(stream, pos) == Decoded([stream[pos + 4..pos + 4 + len]] + rest.messages, rest.end)
  {
    hide FromBigEndian;
    var len, here := FromBigEndian(stream[pos..][..4]), stream[pos..];
    if |stream| >= pos + 4 + len {
      assert here[4..4 + len] == stream[pos + 4..pos + 4 + len] && here[4 + len..] == stream[pos + 4 + len..];
    }
  }

  /** `messages` are those up to `pos`. */
  ghost predicate Reading(stream: seq<Byte>, pos: nat, messages: seq<seq<Byte>>) {
    pos <= |stream|
    && var rest := DecodeFrom(stream, pos);
       Decode(stream) == Decoded(messages + rest.messages, rest.end)
  }

  lemma Regroup(messages: seq<seq<Byte>>, data: seq<Byte>, rest: seq<seq<Byte>>)
    ensures messages + ([data] + rest) == messages + [data] + rest && messages + [] == messages
  {
  }

  lemma ReadingStep(stream: seq<Byte>, pos: nat, messages: seq<seq<Byte>>)
    requires Reading(stream, pos, messages) && pos + 4 <= |stream|
    ensures var len := LengthAt(stream, pos);
            if len > MAX_MESSAGE then Decode(stream) == Decoded(messages, TooLarge)
            else if |stream| < pos + 4 + len then Decode(stream) == Decoded(messages, Truncated)
            else Reading(stream, pos + 4 + len, messages + [stream[pos + 4..pos + 4 + len]])
  {
    hide Decode, DecodeFrom, LengthAt;
    DecodeFirst(stream, pos);
    var len := LengthAt(stream, pos);
    if len <= MAX_MESSAGE && pos + 4 + len <= |stream| {
      Regroup(messages, stream[pos + 4..pos + 4 + len], DecodeFrom(stream, pos + 4 + len).messages);
    } else {
      Regroup(messages, [], []);
    }
  }

  lemma ReadingEnds(stream: seq<Byte>, pos: nat, messages: seq<seq<Byte>>)
    ensures Reading(stream, 0, [])
    ensures Reading(stream, pos, messages) && |stream| < pos + 4 ==> Decode(stream) == Decoded(messages, Closed)
  {
    assert stream[0..] == stream && [] + Decode(stream).messages == Decode(stream).messages
           && messages + [] == messages;
  }

  /** The loop of `handle_binary_protocol`, with the messages it hands on. */
  method ReadMessages(stream: seq<Byte>) returns (messages: seq<seq<Byte>>, end: End)
    ensures Decode(stream) == Decoded(messages, end)
  {
    hide Reading, Decode, LengthAt;
    var pos := 0;
    messages := [];
    ReadingEnds(stream, pos, messages);
    while pos + 4 <= |stream|
      invariant Reading(stream, pos, messages)
    {
      ReadingStep(stream, pos, messages);
      var len := LengthAt(stream, pos);
      if len > MAX_MESSAGE {
        return messages, TooLarge;
      }
      if |stream| < pos + 4 + len {
        return messages, Truncated;
      }
      messages := messages + [stream[pos + 4..pos + 4 + len]];
      pos := pos + 4 + len;
    }
    end := Closed;
    ReadingEnds(stream, pos, messages);
  }

  function FrameAll(messages: seq<seq<Byte>>): seq<Byte> {
    if messages == [] then [] else Frame(messages[0]) + FrameAll(messages[1..])
  }

  ghost predicate Small(messages: seq<seq<Byte>>) {
    forall m | m in messages :: |m| <= 16 * 1024 * 1024
  }

  /** What is left when the loop stops, for each way of stopping. */
  predicate Leftover(rest: seq<Byte>, end: End) {
    match end
    case Closed => |rest| < 4
    case TooLarge => |rest| >= 4 && FromBigEndian(rest[..4]) > 16 * 1024 * 1024
    case Truncated =>
      |rest| >= 4 && FromBigEndian(rest[..4]) <= 16 * 1024 * 1024 && |rest| < 4 + FromBigEndian(rest[..4])
  }

  /** Round trip: framed messages of legal size, followed by anything the loop stops at, come back just
      as they were sent. */
  lemma {:induction false} DecodesFrames(messages: seq<seq<Byte>>, rest: seq<Byte>, end: End)
    requires Small(messages) && Leftover(rest, end)
    ensures Decode(FrameAll(messages) + rest) == Decoded(messages, end)
    decreases |messages|
  {
    hide FromBigEndian, Frame;
    if messages == [] {
      assert FrameAll(messages) + rest == rest;
    } else {
      var m, tail := messages[0], FrameAll(messages[1..]) + rest;
      FrameLeads(m, tail);
      assert FrameAll(messages) + rest == Frame(m) + tail;
      assert |m| % U32 == |m|;
      DecodesFrames(messages[1..], rest, end);
    }
  }

  /** And the other way round: whatever the stream, it is the frames of the messages read from it and a
      leftover that explains why the loop stopped. */
  lemma {:induction false} FramesDecoded(stream: seq<Byte>) returns (rest: seq<Byte>)
    ensures var d := Decode(stream);
            stream == FrameAll(d.messages) + rest && Small(d.messages) && Leftover(rest, d.end)
    decreases |stream|
  {
    hide FromBigEndian, Frame;
    rest := stream;
    assert [] + rest == stream;
    if |stream| >= 4 {
      var len := FromBigEndian(stream[..4]);
      if len <= MAX_MESSAGE && |stream| >= 4 + len {
        var m, d := stream[4..4 + len], Decode(stream[4 + len..]);
        rest := FramesDecoded(stream[4 + len..]);
        FrameRestores(stream);
        assert ([m] + d.messages)[1..] == d.messages;
        assert Frame(m) + (FrameAll(d.messages) + rest) == (Frame(m) + FrameAll(d.messages)) + rest;
      }
    }
  }

  /** Together: what the loop reads is the only way to take the stream apart. */
  lemma DecodeIsExact(stream: seq<Byte>, messages: seq<seq<Byte>>, end: End)
    ensures Decode(stream) == Decoded(messages, end)
            <==> Small(messages) && exists rest :: Leftover(rest, end) && stream == FrameAll(messages) + rest
  {
    if Decode(stream) == Decoded(messages, end) {
      var rest := FramesDecoded(stream);
    }
    if Small(messages) && exists rest :: Leftover(rest, end) && stream == FrameAll(messages) + rest {
      var rest :| Leftover(rest, end) && stream == FrameAll(messages) + rest;
      DecodesFrames(messages, rest, end);
    }
  }

  /** Bytes that arrive later take nothing back: messages read from a prefix are read from the whole. */
  lemma {:induction false} DecodeIsIncremental(stream: seq<Byte>, more: seq<Byte>)
    ensures Decode(stream).messages <= Decode(stream + more).messages
    ensures Decode(stream).end == TooLarge ==> Decode(stream + more) == Decode(stream)
    decreases |stream|
  {
    if |stream| >= 4 {
      var len := FromBigEndian(stream[..4]);
      assert (stream + more)[..4] == stream[..4];
      if len <= MAX_MESSAGE && |stream| >= 4 + len {
        DecodeIsIncremental(stream[4 + len..], more);
        assert (stream + more)[4..4 + len] == stream[4..4 + len];
        assert (stream + more)[4 + len..] == stream[4 + len..] + more;
      }
    }
  }

  /** A single message survives exactly when it is within the limit; beyond, it is refused, or its length
      does not fit 32 bits and the frame says something else. */
  lemma SurvivesExactly(data: seq<Byte>)
    ensures Decode(Frame(data)) == Decoded([data], Closed) <==> |data| <= 16 * 1024 * 1024
  {
    hide FromBigEndian;
    var frame, len := Frame(data), |data| % U32;
    FrameLeads(data, []);
    hide Frame;
    assert frame + [] == frame;
    if |data| <= MAX_MESSAGE {
      assert Decode([]) == Decoded([], Closed);
    } else if len <= MAX_MESSAGE {
      assert Decode(frame).messages[0] == frame[4..4 + len];
      assert |frame[4..4 + len]| < |data|;
    }
  }

  // ---- Which protocol ----

  /** Text if the first byte is an opening brace or an end of line. */
  predicate RoutesToText(first: Byte) {
    first == 0x7B || first == 0x0A || first == 0x0D
  }

  /** `is_binary_protocol`, the other place that decides. */
  predicate IsBinaryProtocol(first: Byte) {
    first != 0x7B
  }

  /** A stream that starts with a frame of legal size is never taken for text, whatever follows. */
  lemma FramesAreNeverText(messages: seq<seq<Byte>>, rest: seq<Byte>)
    requires messages != [] && |messages[0]| <= MAX_MESSAGE
    ensures var stream := FrameAll(messages) + rest;
            stream != [] && !RoutesToText(stream[0]) && IsBinaryProtocol(stream[0])
  {
    var stream := FrameAll(messages) + rest;
    assert stream[0] == Frame(messages[0])[0] == |messages[0]| / 0x100_0000;
  }

  /** The two places disagree on a line end, and on nothing else. */
  lemma DetectionsDisagree(first: Byte)
    ensures IsBinaryProtocol(first) == !RoutesToText(first) <==> first != 0x0A && first != 0x0D
  {
  }
}
