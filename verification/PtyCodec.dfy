/**
 * The PTY frame codec: a type byte, a 32-bit big-endian length and that many bytes. The
 * decoder must not care where the transport cuts the stream.
 */
module PtyCodec {
  import opened Bytes
  import opened BigEndian

  const FRAME_RESIZE: byte := 1
  const HEADER_LENGTH: nat := 5
  const MAX_FRAME_LENGTH: nat := 0x10_0000

  datatype Frame = Frame(kind: byte, data: Chunk)

  function EncodeFrame(kind: byte, payload: Chunk): Result<Chunk, string> {
    if |payload| > MAX_FRAME_LENGTH then Err("PTY frame exceeds the maximum length")
    else Ok([kind] + ToBigEndian(|payload|, 4) + payload)
  }

  predicate Encodable(frame: Frame) {
    |frame.data| <= MAX_FRAME_LENGTH
  }

  predicate AllEncodable(frames: seq<Frame>) {
    forall frame :: frame in frames ==> Encodable(frame)
  }

  /** The stream that carries the frames. */
  function EncodeAll(frames: seq<Frame>): Chunk
    requires AllEncodable(frames)
  {
    if frames == [] then []
    else
      assert Encodable(frames[0]);
      EncodeFrame(frames[0].kind, frames[0].data).value + EncodeAll(frames[1..])
  }

  // ----- parsing -----

  /** The length in the header at the front of a buffer. */
  function HeaderLength(buffer: Chunk): nat
    requires |buffer| >= HEADER_LENGTH
  {
    FromBigEndian(buffer[1..5])
  }

  datatype Parse = Parse(frames: seq<Frame>, rest: Chunk, failed: bool)

  /** The whole frames at the front of a buffer, what is left, and whether that is malformed. */
  function ParseFrames(buffer: Chunk): Parse
    decreases |buffer|
  {
    if |buffer| < HEADER_LENGTH then Parse([], buffer, false)
    else
      var n := HeaderLength(buffer);
      if n > MAX_FRAME_LENGTH then Parse([], buffer, true)
      else if |buffer| < HEADER_LENGTH + n then Parse([], buffer, false)
      else
        var p := ParseFrames(buffer[HEADER_LENGTH + n..]);
        p.(frames := [Frame(buffer[0], buffer[HEADER_LENGTH..HEADER_LENGTH + n])] + p.frames)
  }

  /** PtyFrameDecoder. */
  class Decoder {
    var buffer: Chunk

    constructor ()
      ensures buffer == []
    {
      buffer := [];
    }

    /** An error discards the frames found in the same call and leaves the malformed rest. */
    method Push(chunk: Chunk) returns (r: Result<seq<Frame>, string>)
      modifies this
      ensures var p := ParseFrames(old(buffer) + chunk);
              && buffer == p.rest
              && (r.Err? <==> p.failed)
              && (r.Ok? ==> r.value == p.frames)
    {
      buffer := buffer + chunk;
      var frames: seq<Frame> := [];
      ghost var all := buffer;
      while |buffer| >= HEADER_LENGTH
        invariant ParseFrames(all) == ParseFrames(buffer).(frames := frames + ParseFrames(buffer).frames)
        decreases |buffer|
      {
        var n := FromBigEndian(buffer[1..5]);
        if n > MAX_FRAME_LENGTH {
          return Err("PTY frame exceeds the maximum length");
        }
        if |buffer| < HEADER_LENGTH + n {
          break;
        }
        var frame := Frame(buffer[0], buffer[HEADER_LENGTH..HEADER_LENGTH + n]);
        assert frames + ([frame] + ParseFrames(buffer[HEADER_LENGTH + n..]).frames) ==
               (frames + [frame]) + ParseFrames(buffer[HEADER_LENGTH + n..]).frames;
        frames := frames + [frame];
        buffer := buffer[HEADER_LENGTH + n..];
      }
      return Ok(frames);
    }

    method Finish() returns (r: Result<bool, string>)
      ensures r.Ok? <==> buffer == []
    {
      if |buffer| != 0 { return Err("PTY stream ended inside a frame"); }
      return Ok(true);
    }

    method Reset()
      modifies this
      ensures buffer == []
    {
      buffer := [];
    }
  }

  // ----- the decoder over a whole stream -----

  /** What a decoder has done: the frames it gave out, its buffer, and whether a push failed. */
  function Feed(state: Parse, chunk: Chunk): Parse {
    var p := ParseFrames(state.rest + chunk);
    Parse(if p.failed then state.frames else state.frames + p.frames, p.rest, state.failed || p.failed)
  }

  function FeedAll(state: Parse, chunks: seq<Chunk>): Parse
    decreases |chunks|
  {
    if chunks == [] then state else FeedAll(Feed(state, chunks[0]), chunks[1..])
  }

  function Decode(chunks: seq<Chunk>): Parse {
    FeedAll(Parse([], [], false), chunks)
  }

  /** A buffer with a whole frame at its front. */
  predicate StartsWhole(a: Chunk) {
    |a| >= HEADER_LENGTH && HeaderLength(a) <= MAX_FRAME_LENGTH && |a| >= HEADER_LENGTH + HeaderLength(a)
  }

  function FrontFrame(a: Chunk): Frame
    requires StartsWhole(a)
  {
    Frame(a[0], a[HEADER_LENGTH..HEADER_LENGTH + HeaderLength(a)])
  }

  function AfterFront(a: Chunk): Chunk
    requires StartsWhole(a)
  {
    a[HEADER_LENGTH + HeaderLength(a)..]
  }

  function Prepend(frames: seq<Frame>, p: Parse): Parse {
    p.(frames := frames + p.frames)
  }

  /** More bytes at the end do not disturb the frame at the front. */
  lemma FrontStays(a: Chunk, b: Chunk)
    requires StartsWhole(a)
    ensures StartsWhole(a + b) && FrontFrame(a + b) == FrontFrame(a) && AfterFront(a + b) == AfterFront(a) + b
  {
    assert (a + b)[1..5] == a[1..5];
    var n := HeaderLength(a);
    assert (a + b)[HEADER_LENGTH + n..] == a[HEADER_LENGTH + n..] + b;
    assert (a + b)[HEADER_LENGTH..HEADER_LENGTH + n] == a[HEADER_LENGTH..HEADER_LENGTH + n];
  }

  lemma ParseWhole(a: Chunk)
    requires StartsWhole(a)
    ensures ParseFrames(a) == Prepend([FrontFrame(a)], ParseFrames(AfterFront(a)))
  {
  }

  lemma PrependTwice(x: seq<Frame>, y: seq<Frame>, p: Parse)
    ensures Prepend(x, Prepend(y, p)) == Prepend(x + y, p)
  {
    assert x + (y + p.frames) == (x + y) + p.frames;
  }

  lemma ParsePartial(a: Chunk, b: Chunk)
    requires !StartsWhole(a)
    ensures ParseFrames(a) == Parse([], a, ParseFrames(a).failed)
    ensures ParseFrames(a).failed ==> ParseFrames(a + b).failed
  {
    if |a| >= HEADER_LENGTH {
      assert (a + b)[1..5] == a[1..5];
    }
  }

  /** Parsing more bytes later is parsing them together. */
  lemma {:induction false} ParseAppend(a: Chunk, b: Chunk)
    ensures ParseFrames(a).failed ==> ParseFrames(a + b).failed
    ensures !ParseFrames(a).failed ==>
              ParseFrames(a + b) == Prepend(ParseFrames(a).frames, ParseFrames(ParseFrames(a).rest + b))
    decreases |a|
  {
    if StartsWhole(a) {
      FrontStays(a, b);
      ParseWhole(a);
      ParseWhole(a + b);
      ParseAppend(AfterFront(a), b);
      var p := ParseFrames(AfterFront(a));
      PrependTwice([FrontFrame(a)], p.frames, ParseFrames(p.rest + b));
    } else {
      ParsePartial(a, b);
      assert Prepend([], ParseFrames(a + b)) == ParseFrames(a + b);
    }
  }

  /** What is left contains no whole frame, and is short unless malformed. */
  lemma {:induction false} RestIsIncomplete(buffer: Chunk)
    ensures var p := ParseFrames(buffer);
            && |p.rest| <= |buffer|
            && (!p.failed ==> |p.rest| < HEADER_LENGTH + MAX_FRAME_LENGTH)
            && ParseFrames(p.rest) == Parse([], p.rest, p.failed)
    decreases |buffer|
  {
    if |buffer| >= HEADER_LENGTH {
      var n := HeaderLength(buffer);
      if n <= MAX_FRAME_LENGTH && |buffer| >= HEADER_LENGTH + n {
        RestIsIncomplete(buffer[HEADER_LENGTH + n..]);
      }
    }
  }

  lemma {:induction false} FailureStays(state: Parse, chunks: seq<Chunk>)
    requires state.failed
    ensures FeedAll(state, chunks).failed
    decreases |chunks|
  {
    if chunks != [] {
      FailureStays(Feed(state, chunks[0]), chunks[1..]);
    }
  }

  /** A malformed rest gives out nothing more, whatever follows it. */
  lemma {:induction false} FailureGivesNothing(state: Parse, chunks: seq<Chunk>)
    requires ParseFrames(state.rest) == Parse([], state.rest, true)
    ensures FeedAll(state, chunks).frames == state.frames
    decreases |chunks|
  {
    if chunks != [] {
      MalformedStays(state.rest, chunks[0]);
      FailureGivesNothing(Feed(state, chunks[0]), chunks[1..]);
    }
  }

  lemma MalformedStays(rest: Chunk, more: Chunk)
    requires ParseFrames(rest) == Parse([], rest, true)
    ensures ParseFrames(rest + more) == Parse([], rest + more, true)
  {
    assert (rest + more)[1..5] == rest[1..5];
  }

  /** Feeding chunks to a decoder that has not failed is parsing their concatenation. */
  lemma {:induction false} FeedIsParse(state: Parse, chunks: seq<Chunk>)
    requires !state.failed && ParseFrames(state.rest) == Parse([], state.rest, false)
    ensures var p := ParseFrames(state.rest + Flatten(chunks));
            && (FeedAll(state, chunks).failed <==> p.failed)
            && (!p.failed ==> FeedAll(state, chunks) == Prepend(state.frames, p))
    decreases |chunks|
  {
    if chunks == [] {
      assert state.rest + [] == state.rest && state.frames + [] == state.frames;
    } else {
      FeedOne(state, chunks[0], Flatten(chunks[1..]));
      assert state.rest + Flatten(chunks) == (state.rest + chunks[0]) + Flatten(chunks[1..]);
      var next := Feed(state, chunks[0]);
      if next.failed {
        FailureStays(next, chunks[1..]);
      } else {
        FeedIsParse(next, chunks[1..]);
      }
    }
  }

  lemma FeedOne(state: Parse, chunk: Chunk, later: Chunk)
    requires !state.failed
    ensures var next := Feed(state, chunk);
            var all := ParseFrames((state.rest + chunk) + later);
            && (next.failed ==> all.failed)
            && (!next.failed ==>
                  && ParseFrames(next.rest) == Parse([], next.rest, false)
                  && Prepend(state.frames, all) == Prepend(next.frames, ParseFrames(next.rest + later)))
  {
    var front := state.rest + chunk;
    ParseAppend(front, later);
    RestIsIncomplete(front);
    PrependTwice(state.frames, ParseFrames(front).frames, ParseFrames(ParseFrames(front).rest + later));
  }

  /**
   * The cuts do not matter: two ways of cutting one byte stream agree on whether it is
   * malformed and, if it is not, on the frames and on what is left, which is shorter than
   * one frame.
   */
  lemma CutsDoNotMatter(cut: seq<Chunk>, other: seq<Chunk>)
    requires Flatten(cut) == Flatten(other)
    ensures Decode(cut).failed <==> Decode(other).failed
    ensures !Decode(cut).failed ==>
              Decode(cut) == Decode(other) && |Decode(cut).rest| < HEADER_LENGTH + MAX_FRAME_LENGTH
  {
    DecodeIsParse(cut);
    DecodeIsParse(other);
    RestIsIncomplete(Flatten(cut));
  }

  lemma DecodeIsParse(chunks: seq<Chunk>)
    ensures Decode(chunks).failed <==> ParseFrames(Flatten(chunks)).failed
    ensures !Decode(chunks).failed ==> Decode(chunks) == ParseFrames(Flatten(chunks))
  {
    FeedIsParse(Parse([], [], false), chunks);
    assert [] + Flatten(chunks) == Flatten(chunks);
    var p := ParseFrames(Flatten(chunks));
    assert [] + p.frames == p.frames;
  }

  /** decodeFrames: the frames given out before the source ended or a push failed. */
  method DecodeFrames(source: seq<Chunk>) returns (frames: seq<Frame>, ok: bool)
    ensures ok <==> !Decode(source).failed && Decode(source).rest == []
    ensures frames == Decode(source).frames
  {
    var decoder := new Decoder();
    frames := [];
    for i := 0 to |source|
      invariant FeedAll(Parse(frames, decoder.buffer, false), source[i..]) == Decode(source)
    {
      assert source[i..][1..] == source[i + 1..];
      ghost var before := Parse(frames, decoder.buffer, false);
      var pushed := decoder.Push(source[i]);
      if pushed.Err? {
        FailureStays(Feed(before, source[i]), source[i + 1..]);
        RestIsIncomplete(before.rest + source[i]);
        FailureGivesNothing(Feed(before, source[i]), source[i + 1..]);
        return frames, false;
      }
      frames := frames + pushed.value;
    }
    var finished := decoder.Finish();
    ok := finished.Ok?;
  }

  // ----- codec -----

  lemma MaxFitsHeader()
    ensures MAX_FRAME_LENGTH < Pow256(4)
  {
    assert Pow256(4) == 0x100 * (0x100 * (0x100 * 0x100));
  }

  lemma EncodedHeader(frame: Frame, more: Chunk)
    requires Encodable(frame)
    ensures var s := EncodeFrame(frame.kind, frame.data).value + more;
            && |s| == HEADER_LENGTH + |frame.data| + |more|
            && s[0] == frame.kind
            && HeaderLength(s) == |frame.data|
            && s[HEADER_LENGTH..HEADER_LENGTH + |frame.data|] == frame.data
            && s[HEADER_LENGTH + |frame.data|..] == more
  {
    var s := EncodeFrame(frame.kind, frame.data).value + more;
    assert s[1..5] == ToBigEndian(|frame.data|, 4);
    MaxFitsHeader();
    ReadBack(|frame.data|, 4);
  }

  /** Decoding what was encoded gives the frames back and leaves nothing. */
  lemma {:induction false} DecodeEncode(frames: seq<Frame>)
    requires AllEncodable(frames)
    ensures ParseFrames(EncodeAll(frames)) == Parse(frames, [], false)
    decreases |frames|
  {
    if frames != [] {
      assert Encodable(frames[0]);
      EncodedHeader(frames[0], EncodeAll(frames[1..]));
      DecodeEncode(frames[1..]);
      assert frames == [Frame(frames[0].kind, frames[0].data)] + frames[1..];
    }
  }

  lemma EncodeAllCons(frame: Frame, more: seq<Frame>)
    requires Encodable(frame) && AllEncodable(more)
    ensures AllEncodable([frame] + more)
    ensures EncodeAll([frame] + more) == EncodeFrame(frame.kind, frame.data).value + EncodeAll(more)
  {
    assert ([frame] + more)[1..] == more;
  }

  lemma FirstFrameWritten(buffer: Chunk, n: nat)
    requires |buffer| >= HEADER_LENGTH && n == HeaderLength(buffer) <= MAX_FRAME_LENGTH && |buffer| >= HEADER_LENGTH + n
    ensures EncodeFrame(buffer[0], buffer[HEADER_LENGTH..HEADER_LENGTH + n]) == Ok(buffer[..HEADER_LENGTH + n])
  {
    WriteBack(buffer[1..5]);
    assert buffer[..HEADER_LENGTH + n] == [buffer[0]] + buffer[1..5] + buffer[HEADER_LENGTH..HEADER_LENGTH + n];
  }

  lemma JoinParts(whole: Chunk, i: nat, a: Chunk, b: Chunk)
    requires i <= |whole| && a + b == whole[i..]
    ensures (whole[..i] + a) + b == whole
  {
    assert (whole[..i] + a) + b == whole[..i] + (a + b);
  }

  /** Decoding invents nothing: what was decoded, encoded again, is the stream. */
  lemma {:induction false} EncodeDecode(buffer: Chunk)
    ensures AllEncodable(ParseFrames(buffer).frames)
    ensures EncodeAll(ParseFrames(buffer).frames) + ParseFrames(buffer).rest == buffer
    decreases |buffer|
  {
    if |buffer| >= HEADER_LENGTH {
      var n := HeaderLength(buffer);
      if n <= MAX_FRAME_LENGTH && |buffer| >= HEADER_LENGTH + n {
        var tail := buffer[HEADER_LENGTH + n..];
        EncodeDecode(tail);
        FirstFrameWritten(buffer, n);
        var p := ParseFrames(tail);
        EncodeAllCons(Frame(buffer[0], buffer[HEADER_LENGTH..HEADER_LENGTH + n]), p.frames);
        JoinParts(buffer, HEADER_LENGTH + n, EncodeAll(p.frames), p.rest);
      }
    }
  }

  /** A stream that has not wholly arrived decodes to the first frames, without an error. */
  lemma PartialStream(frames: seq<Frame>, arrived: Chunk)
    requires AllEncodable(frames) && arrived <= EncodeAll(frames)
    ensures !ParseFrames(arrived).failed && ParseFrames(arrived).frames <= frames
  {
    var missing := EncodeAll(frames)[|arrived|..];
    assert arrived + missing == EncodeAll(frames);
    DecodeEncode(frames);
    ParseAppend(arrived, missing);
    assert ParseFrames(arrived).frames <= Prepend(ParseFrames(arrived).frames, ParseFrames(ParseFrames(arrived).rest + missing)).frames;
  }

  /** However the encoded frames are cut, the decoder gives out exactly them and accepts the end. */
  lemma RoundTrip(frames: seq<Frame>, chunks: seq<Chunk>)
    requires AllEncodable(frames) && Flatten(chunks) == EncodeAll(frames)
    ensures Decode(chunks) == Parse(frames, [], false)
  {
    DecodeIsParse(chunks);
    DecodeEncode(frames);
  }

  // ----- resize -----

  /** A terminal dimension: None stands for a value that is not a finite number. */
  function NormalizeDimension(value: Option<int>, fallback: nat): nat {
    match value
    case None => fallback
    case Some(v) => if v < 1 then 1 else if v > 0xffff then 0xffff else v
  }

  function ResizePayload(columns: Option<int>, rows: Option<int>): Chunk {
    ToBigEndian(NormalizeDimension(columns, 80), 2) + ToBigEndian(NormalizeDimension(rows, 24), 2)
  }

  function EncodeResize(columns: Option<int>, rows: Option<int>): Result<Chunk, string> {
    EncodeFrame(FRAME_RESIZE, ResizePayload(columns, rows))
  }

  function DecodeResize(payload: Chunk): Result<(nat, nat), string> {
    if |payload| != 4 then Err("PTY resize payload must contain 4 bytes")
    else
      var columns, rows := FromBigEndian(payload[..2]), FromBigEndian(payload[2..]);
      Ok((if columns < 1 then 1 else columns, if rows < 1 then 1 else rows))
  }

  lemma DecodeResizeParts(columns: Chunk, rows: Chunk)
    requires |columns| == 2 && |rows| == 2
    ensures DecodeResize(columns + rows) ==
            Ok((if FromBigEndian(columns) < 1 then 1 else FromBigEndian(columns),
                if FromBigEndian(rows) < 1 then 1 else FromBigEndian(rows)))
  {
    assert (columns + rows)[..2] == columns && (columns + rows)[2..] == rows;
  }

  lemma DimensionReadBack(n: nat)
    requires n <= 0xffff
    ensures FromBigEndian(ToBigEndian(n, 2)) == n
  {
    assert Pow256(2) == 0x100 * Pow256(1) == 0x100 * 0x100;
    ReadBack(n, 2);
  }

  lemma ResizePayloadReadBack(columns: Option<int>, rows: Option<int>)
    ensures DecodeResize(ResizePayload(columns, rows)) ==
            Ok((NormalizeDimension(columns, 80), NormalizeDimension(rows, 24)))
  {
    DimensionsReadBack(NormalizeDimension(columns, 80), NormalizeDimension(rows, 24));
  }

  lemma DimensionsReadBack(c: nat, r: nat)
    requires 1 <= c <= 0xffff && 1 <= r <= 0xffff
    ensures DecodeResize(ToBigEndian(c, 2) + ToBigEndian(r, 2)) == Ok((c, r))
  {
    DimensionReadBack(c);
    DimensionReadBack(r);
    DecodeResizeParts(ToBigEndian(c, 2), ToBigEndian(r, 2));
  }

  /** A resize frame carries the normalized dimensions to the other end. */
  lemma ResizeRoundTrip(columns: Option<int>, rows: Option<int>)
    ensures EncodeResize(columns, rows).Ok?
    ensures var p := ParseFrames(EncodeResize(columns, rows).value);
            && !p.failed && p.rest == [] && |p.frames| == 1
            && p.frames[0].kind == FRAME_RESIZE
            && DecodeResize(p.frames[0].data) ==
               Ok((NormalizeDimension(columns, 80), NormalizeDimension(rows, 24)))
  {
    var frame := Frame(FRAME_RESIZE, ResizePayload(columns, rows));
    var encoded := EncodeResize(columns, rows).value;
    assert EncodeAll([frame]) == encoded + EncodeAll([]) == encoded;
    DecodeEncode([frame]);
    ResizePayloadReadBack(columns, rows);
  }
}
