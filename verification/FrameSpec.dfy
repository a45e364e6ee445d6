/** Kafka's length-prefixed frames as a pure function of the bytes received. */
module FrameSpec {
  import opened Common
  import opened Wire

  datatype FrameError = NegativeFrameLength(length: int) | FrameTooLarge(length: int, limit: nat)

  /** What the next decode makes of a buffer: not enough yet, one body and what follows it, or a bad prefix. */
  datatype Head = Incomplete | Complete(body: Bytes, rest: Bytes) | Bad(error: FrameError)

  function HeadOf(b: Bytes, maxFrame: nat): (h: Head)
    ensures h.Complete? ==> |h.body| <= maxFrame && PREFIX + |h.body| + |h.rest| == |b|
  {
    if |b| < PREFIX then Incomplete
    else
      var length := Int32At(b);
      if length < 0 then Bad(NegativeFrameLength(length))
      else if length > maxFrame then Bad(FrameTooLarge(length, maxFrame))
      else if |b| < PREFIX + length then Incomplete
      else Complete(b[PREFIX..PREFIX + length], b[PREFIX + length..])
  }

  /** Bytes that arrive later change nothing about a head that is already decided. */
  lemma HeadStable(b: Bytes, more: Bytes, maxFrame: nat)
    ensures HeadOf(b, maxFrame).Bad? ==> HeadOf(b + more, maxFrame) == HeadOf(b, maxFrame)
    ensures HeadOf(b, maxFrame).Complete? ==>
      HeadOf(b + more, maxFrame) == Complete(HeadOf(b, maxFrame).body, HeadOf(b, maxFrame).rest + more)
  {
    if |b| >= PREFIX {
      assert Int32At(b + more) == Int32At(b);
      var length := Int32At(b);
      if 0 <= length <= maxFrame && |b| >= PREFIX + length {
        assert (b + more)[PREFIX..PREFIX + length] == b[PREFIX..PREFIX + length];
        assert (b + more)[PREFIX + length..] == b[PREFIX + length..] + more;
      }
    }
  }

  datatype Decoded = Decoded(frames: seq<Bytes>, rest: Bytes, error: Option<FrameError>)

  /** Decoding until nothing complete is left. */
  function Decode(b: Bytes, maxFrame: nat): Decoded
    decreases |b|
  {
    match HeadOf(b, maxFrame)
    case Incomplete => Decoded([], b, None)
    case Bad(error) => Decoded([], b, Some(error))
    case Complete(body, rest) =>
      var d := Decode(rest, maxFrame);
      d.(frames := [body] + d.frames)
  }

  /** The result of a full drain holds no further frame. */
  lemma {:induction false} DecodeDrains(b: Bytes, maxFrame: nat)
    ensures var d := Decode(b, maxFrame);
      if d.error.None? then HeadOf(d.rest, maxFrame).Incomplete? else HeadOf(d.rest, maxFrame) == Bad(d.error.value)
    decreases |b|
  {
    var h := HeadOf(b, maxFrame);
    if h.Complete? {
      DecodeDrains(h.rest, maxFrame);
    }
  }

  function After(frames: seq<Bytes>, d: Decoded): Decoded {
    d.(frames := frames + d.frames)
  }

  /** Decoding in two parts is decoding at once. */
  lemma {:induction false} DecodeConcat(b: Bytes, more: Bytes, maxFrame: nat)
    ensures var d := Decode(b, maxFrame);
      Decode(b + more, maxFrame) ==
        if d.error.Some? then d.(rest := d.rest + more) else After(d.frames, Decode(d.rest + more, maxFrame))
    decreases |b|
  {
    hide HeadOf;
    HeadStable(b, more, maxFrame);
    var h := HeadOf(b, maxFrame);
    match h
    case Incomplete =>
      assert [] + Decode(b + more, maxFrame).frames == Decode(b + more, maxFrame).frames;
    case Bad(error) =>
    case Complete(body, rest) =>
      DecodeConcat(rest, more, maxFrame);
      var d := Decode(rest, maxFrame);
      if d.error.None? {
        var last := Decode(d.rest + more, maxFrame).frames;
        assert [body] + (d.frames + last) == ([body] + d.frames) + last;
      }
  }

  function Flatten(chunks: seq<Bytes>): Bytes {
    if chunks == [] then [] else chunks[0] + Flatten(chunks[1..])
  }

  /** Feeding chunk by chunk with a full drain after each; a bad prefix ends the stream. */
  function Consume(buffered: Bytes, chunks: seq<Bytes>, maxFrame: nat): Decoded
    decreases |chunks|
  {
    if chunks == [] then Decoded([], buffered, None)
    else
      var d := Decode(buffered + chunks[0], maxFrame);
      if d.error.Some? then d else After(d.frames, Consume(d.rest, chunks[1..], maxFrame))
  }

  /**
   * However a stream is cut into chunks, the frames decoded and the way decoding ends depend on the
   * stream alone, and the undecoded suffix stays buffered.
   */
  lemma {:induction false} ChunkingIndependence(buffered: Bytes, chunks: seq<Bytes>, maxFrame: nat)
    requires HeadOf(buffered, maxFrame).Incomplete?
    ensures var whole, fed := Decode(buffered + Flatten(chunks), maxFrame), Consume(buffered, chunks, maxFrame);
      fed.frames == whole.frames && fed.error == whole.error && (fed.error.None? ==> fed.rest == whole.rest)
    decreases |chunks|
  {
    if chunks == [] {
      assert buffered + [] == buffered;
    } else {
      var first, others := buffered + chunks[0], Flatten(chunks[1..]);
      assert buffered + Flatten(chunks) == first + others;
      DecodeConcat(first, others, maxFrame);
      DecodeDrains(first, maxFrame);
      var d := Decode(first, maxFrame);
      if d.error.None? {
        ChunkingIndependence(d.rest, chunks[1..], maxFrame);
      }
    }
  }

  function EncodeFrame(body: Bytes): Bytes
    requires |body| <= I32_MAX
  {
    Int32Bytes(|body|) + body
  }

  ghost predicate WithinLimit(frames: seq<Bytes>, maxFrame: nat) {
    forall i :: 0 <= i < |frames| ==> |frames[i]| <= maxFrame
  }

  function Encode(frames: seq<Bytes>): Bytes
    requires WithinLimit(frames, I32_MAX)
  {
    if frames == [] then [] else EncodeFrame(frames[0]) + Encode(frames[1..])
  }

  /** An encoded frame at the front is the head, whatever follows. */
  lemma HeadOfEncoded(body: Bytes, others: Bytes, maxFrame: nat)
    requires |body| <= maxFrame <= I32_MAX
    ensures HeadOf(EncodeFrame(body) + others, maxFrame) == Complete(body, others)
  {
    hide Int32At, Int32Bytes;
    var b := EncodeFrame(body) + others;
    Int32RoundTrip(|body|, body + others);
    assert b == Int32Bytes(|body|) + (body + others);
    assert b[PREFIX..PREFIX + |body|] == body;
    assert b[PREFIX + |body|..] == others;
  }

  lemma {:induction false} DecodeEncode(frames: seq<Bytes>, tail: Bytes, maxFrame: nat)
    requires maxFrame <= I32_MAX && WithinLimit(frames, maxFrame) && HeadOf(tail, maxFrame).Incomplete?
    ensures Decode(Encode(frames) + tail, maxFrame) == Decoded(frames, tail, None)
    decreases |frames|
  {
    hide HeadOf, EncodeFrame;
    if frames == [] {
      assert [] + tail == tail;
    } else {
      var others := Encode(frames[1..]) + tail;
      DecodeEncode(frames[1..], tail, maxFrame);
      HeadOfEncoded(frames[0], others, maxFrame);
      assert Encode(frames) + tail == EncodeFrame(frames[0]) + others;
      assert [frames[0]] + frames[1..] == frames;
    }
  }

  /** Every list of frames within the limit survives every split of its encoding into chunks. */
  lemma RoundTrip(frames: seq<Bytes>, tail: Bytes, chunks: seq<Bytes>, maxFrame: nat)
    requires maxFrame <= I32_MAX && WithinLimit(frames, maxFrame) && HeadOf(tail, maxFrame).Incomplete?
    requires Flatten(chunks) == Encode(frames) + tail
    ensures Consume([], chunks, maxFrame) == Decoded(frames, tail, None)
  {
    ChunkingIndependence([], chunks, maxFrame);
    assert [] + Flatten(chunks) == Flatten(chunks);
    DecodeEncode(frames, tail, maxFrame);
  }
}
