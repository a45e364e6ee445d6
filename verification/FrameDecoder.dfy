/** `KafkaFrameDecoder` of src/reactor/bornera/frame.rs over the framing of crates/kafka-driver-transport. */
module FrameDecoders {
  import opened Common
  import opened Wire
  import opened FrameSpec

  const MIN_GROWTH: nat := 8

  datatype FrameLimits = FrameLimits(maxFrame: nat, maxBuffered: nat)

  datatype LimitsError =
    | FrameExceedsProtocolMaximum(requested: nat)
    | BufferCannotHoldMaximumFrame(required: nat, configured: nat)

  datatype LimitsResult = LimitsOk(limits: FrameLimits) | LimitsErr(error: LimitsError)

  /** `FrameLimits::new`: accepted exactly when one maximum frame with its prefix fits the buffer. */
  function NewLimits(maxFrame: nat, maxBuffered: nat): (r: LimitsResult)
    ensures r.LimitsOk? <==> maxFrame <= I32_MAX && PREFIX + maxFrame <= maxBuffered
    ensures r.LimitsOk? ==> r.limits == FrameLimits(maxFrame, maxBuffered)
  {
    if maxFrame > I32_MAX then LimitsErr(FrameExceedsProtocolMaximum(maxFrame))
    else if maxBuffered < maxFrame + PREFIX then LimitsErr(BufferCannotHoldMaximumFrame(maxFrame + PREFIX, maxBuffered))
    else LimitsOk(FrameLimits(maxFrame, maxBuffered))
  }

  /** Some bytes that fit the buffer decode to a frame of `length` bytes. */
  ghost predicate Arrives(length: nat, maxFrame: nat, maxBuffered: nat) {
    exists b: Bytes :: |b| <= maxBuffered && HeadOf(b, maxFrame).Complete? && |HeadOf(b, maxFrame).body| == length
  }

  /** Limits are accepted exactly when a frame of every permitted length can be received under them. */
  lemma LimitsAdmitEveryFrame(maxFrame: nat, maxBuffered: nat)
    ensures NewLimits(maxFrame, maxBuffered).LimitsOk? <==>
      forall length: nat :: length <= maxFrame ==> Arrives(length, maxFrame, maxBuffered)
  {
    if NewLimits(maxFrame, maxBuffered).LimitsOk? {
      forall length: nat | length <= maxFrame ensures Arrives(length, maxFrame, maxBuffered) {
        var body: Bytes := seq(length, _ => 0);
        HeadOfEncoded(body, [], maxFrame);
        var b := EncodeFrame(body) + [];
        assert HeadOf(b, maxFrame).Complete?;
      }
    }
    if forall length: nat :: length <= maxFrame ==> Arrives(length, maxFrame, maxBuffered) {
      assert Arrives(maxFrame, maxFrame, maxBuffered);
      var b: Bytes :| |b| <= maxBuffered && HeadOf(b, maxFrame).Complete? && |HeadOf(b, maxFrame).body| == maxFrame;
      LongestFits(b, maxFrame, maxBuffered);
    }
  }

  lemma LongestFits(b: Bytes, maxFrame: nat, maxBuffered: nat)
    requires |b| <= maxBuffered && HeadOf(b, maxFrame).Complete? && |HeadOf(b, maxFrame).body| == maxFrame
    ensures NewLimits(maxFrame, maxBuffered).LimitsOk?
  {
    assert Int32At(b) == maxFrame;
  }

  predicate Usable(l: FrameLimits) {
    1 <= l.maxFrame && NewLimits(l.maxFrame, l.maxBuffered).LimitsOk? && l.maxBuffered <= USIZE_MAX
  }

  datatype DecodeError =
    | DecoderFailed
    | InputChunkTooLarge(incoming: nat, limit: nat)
    | BufferCapacityExceeded(held: nat, incoming: nat, limit: nat)
    | AllocationCapacityExceeded(observed: nat, limit: nat)
    | Framing(error: FrameError)

  datatype Next = NoFrame | Frame(body: Bytes) | NextErr(error: DecodeError)

  datatype Configured = Ready(decoder: KafkaFrameDecoder) | RetainedLimitOverflow

  /** `KafkaFrameDecoder::new`; fails exactly when `B + 2Q` cannot be represented. */
  method Configure(limits: FrameLimits, maxInput: nat) returns (r: Configured)
    requires Usable(limits) && 1 <= maxInput <= USIZE_MAX
    ensures r.Ready? <==> limits.maxBuffered + 2 * maxInput <= USIZE_MAX
    ensures r.Ready? ==>
      && fresh(r.decoder) && r.decoder.Valid() && r.decoder.buffered == [] && !r.decoder.failed
      && r.decoder.maxFrame == limits.maxFrame && r.decoder.maxInput == maxInput
      && r.decoder.maxCoalesced == limits.maxBuffered + maxInput
      && r.decoder.retainedLimit == limits.maxBuffered + 2 * maxInput
  {
    var coalesced := limits.maxBuffered + maxInput;
    if coalesced > USIZE_MAX || coalesced + maxInput > USIZE_MAX {
      return RetainedLimitOverflow;
    }
    var decoder := new KafkaFrameDecoder(limits.maxFrame, coalesced, maxInput, coalesced + maxInput);
    r := Ready(decoder);
  }

  class KafkaFrameDecoder {
    const maxFrame: nat
    const maxCoalesced: nat
    const maxInput: nat
    const retainedLimit: nat
    var buffered: Bytes
    var capacity: nat
    var failed: bool

    /** Buffer and capacity stay within `B + Q`, and the admission limit leaves one more quantum. */
    ghost predicate Valid()
      reads this
    {
      && maxFrame <= I32_MAX
      && PREFIX + maxFrame + maxInput <= maxCoalesced
      && |buffered| <= capacity <= maxCoalesced
      && maxCoalesced + maxInput == retainedLimit <= USIZE_MAX
    }

    /** Nothing complete is waiting in the buffer. */
    ghost predicate Drained()
      reads this
    {
      HeadOf(buffered, maxFrame).Incomplete?
    }

    constructor (maxFrame: nat, maxCoalesced: nat, maxInput: nat, retainedLimit: nat)
      requires maxFrame <= I32_MAX && PREFIX + maxFrame + maxInput <= maxCoalesced
      requires maxCoalesced + maxInput == retainedLimit <= USIZE_MAX
      ensures Valid() && buffered == [] && !failed
      ensures this.maxFrame == maxFrame && this.maxCoalesced == maxCoalesced
      ensures this.maxInput == maxInput && this.retainedLimit == retainedLimit
    {
      this.maxFrame, this.maxCoalesced, this.maxInput, this.retainedLimit := maxFrame, maxCoalesced, maxInput, retainedLimit;
      buffered, capacity, failed := [], 0, false;
    }

    /** Grows the buffer; the allocator may grant more than was asked for, and too much is a failure. */
    method EnsureCapacity(accepted: nat) returns (failure: Option<DecodeError>)
      requires Valid() && |buffered| <= accepted <= maxCoalesced
      modifies this`capacity, this`buffered, this`failed
      ensures Valid()
      ensures failure.None? ==> accepted <= capacity && buffered == old(buffered) && failed == old(failed)
      ensures failure.Some? ==> failure.value.AllocationCapacityExceeded? && failed && buffered == [] && capacity == 0
    {
      if accepted <= capacity {
        return None;
      }
      var doubled := if capacity * 2 > USIZE_MAX then USIZE_MAX else capacity * 2;
      var wanted := if accepted > doubled then accepted else doubled;
      var grown := if wanted > MIN_GROWTH then wanted else MIN_GROWTH;
      var target := if grown > maxCoalesced then maxCoalesced else grown;
      if capacity < target {
        var granted: nat := *;
        capacity := if granted < target then target else granted;
      }
      if capacity > maxCoalesced {
        failure := Some(AllocationCapacityExceeded(capacity, maxCoalesced));
        buffered, capacity, failed := [], 0, true;
        return;
      }
      failure := None;
    }

    method Feed(input: Bytes) returns (failure: Option<DecodeError>)
      requires Valid()
      modifies this
      ensures Valid()
      ensures failure.None? ==> !old(failed) && !failed && buffered == old(buffered) + input && |input| <= maxInput
      ensures failure.Some? && !failure.value.AllocationCapacityExceeded? ==> buffered == old(buffered) && failed == old(failed)
      ensures failure.Some? && failure.value.AllocationCapacityExceeded? ==> !old(failed) && failed && |input| <= maxInput
      ensures failure == Some(DecoderFailed) <==> old(failed)
      ensures failure.Some? && failure.value.InputChunkTooLarge? <==> !old(failed) && |input| > maxInput
      ensures failure.Some? && failure.value.BufferCapacityExceeded? <==>
        !old(failed) && |input| <= maxInput && |old(buffered)| + |input| > maxCoalesced
      ensures old(Drained()) ==> !(failure.Some? && failure.value.BufferCapacityExceeded?)
      ensures failure.Some? ==> !failure.value.Framing?
    {
      if failed {
        return Some(DecoderFailed);
      }
      if |input| > maxInput {
        return Some(InputChunkTooLarge(|input|, maxInput));
      }
      var accepted := |buffered| + |input|;
      if accepted > USIZE_MAX || accepted > maxCoalesced {
        return Some(BufferCapacityExceeded(|buffered|, |input|, maxCoalesced));
      }
      failure := EnsureCapacity(accepted);
      if failure.None? {
        buffered := buffered + input;
      }
    }

    /** One decode step: exactly what the head of the buffer says, latching failure on a bad prefix. */
    method NextFrame() returns (next: Next)
      requires Valid()
      modifies this
      ensures Valid()
      ensures old(failed) ==> next == NextErr(DecoderFailed) && buffered == old(buffered) && failed
      ensures !old(failed) ==>
        match HeadOf(old(buffered), maxFrame)
        case Incomplete => next == NoFrame && buffered == old(buffered) && !failed
        case Complete(body, rest) => next == Frame(body) && buffered == rest && !failed
        case Bad(error) => next == NextErr(Framing(error)) && buffered == old(buffered) && failed
    {
      if failed {
        return NextErr(DecoderFailed);
      }
      if |buffered| < PREFIX {
        return NoFrame;
      }
      var length := Int32At(buffered);
      if length < 0 {
        failed := true;
        return NextErr(Framing(NegativeFrameLength(length)));
      }
      if length > maxFrame {
        failed := true;
        return NextErr(Framing(FrameTooLarge(length, maxFrame)));
      }
      var consumed := PREFIX + length;
      if |buffered| < consumed {
        return NoFrame;
      }
      next := Frame(buffered[PREFIX..consumed]);
      buffered := buffered[consumed..];
      if buffered == [] {
        capacity := 0;
      }
    }

    /** Decodes until nothing complete is left. */
    method Drain() returns (frames: seq<Bytes>, failure: Option<DecodeError>)
      requires Valid() && !failed
      modifies this
      ensures Valid()
      ensures var d := Decode(old(buffered), maxFrame);
        && frames == d.frames && buffered == d.rest && failed == d.error.Some?
        && failure == if d.error.Some? then Some(Framing(d.error.value)) else None
    {
      hide HeadOf;
      frames := [];
      ghost var start := buffered;
      assert After([], Decode(start, maxFrame)) == Decode(start, maxFrame);
      while true
        invariant Valid() && !failed
        invariant Decode(start, maxFrame) == After(frames, Decode(buffered, maxFrame))
        decreases |buffered|
      {
        ghost var here := buffered;
        var next := NextFrame();
        match next
        case NoFrame =>
          return frames, None;
        case NextErr(error) =>
          return frames, Some(error);
        case Frame(body) =>
          OneMore(frames, body, Decode(buffered, maxFrame));
          frames := frames + [body];
      }
    }

    /** Feeds every chunk, draining after each: the frames are those of the whole stream. */
    method Stream(chunks: seq<Bytes>) returns (frames: seq<Bytes>, failure: Option<DecodeError>)
      requires Valid() && !failed && Drained()
      requires forall i :: 0 <= i < |chunks| ==> |chunks[i]| <= maxInput
      modifies this
      ensures Valid()
      ensures var whole := Decode(old(buffered) + Flatten(chunks), maxFrame);
        && (failure.None? ==> frames == whole.frames && whole.error.None? && buffered == whole.rest)
        && (failure.Some? && failure.value.Framing? ==> frames == whole.frames && whole.error == Some(failure.value.error))
        && frames <= whole.frames
      ensures failure.Some? ==> failure.value.Framing? || failure.value.AllocationCapacityExceeded?
    {
      hide HeadOf, Decode;
      frames := [];
      ghost var start := buffered;
      assert After([], Consume(start, chunks, maxFrame)) == Consume(start, chunks, maxFrame);
      ChunkingIndependence(start, chunks, maxFrame);
      for i := 0 to |chunks|
        invariant Valid() && !failed && Drained()
        invariant Consume(start, chunks, maxFrame) == After(frames, Consume(buffered, chunks[i..], maxFrame))
      {
        ghost var here := buffered;
        failure := Feed(chunks[i]);
        if failure.Some? {
          return;
        }
        DecodeDrains(buffered, maxFrame);
        ghost var d := Decode(buffered, maxFrame);
        var more;
        more, failure := Drain();
        assert chunks[i..][0] == chunks[i] && chunks[i..][1..] == chunks[i + 1..];
        ConsumeStep(frames, here, chunks[i..], maxFrame);
        frames := frames + more;
        if failure.Some? {
          return;
        }
      }
      failure := None;
    }
  }

  lemma OneMore(frames: seq<Bytes>, body: Bytes, d: Decoded)
    ensures After(frames, d.(frames := [body] + d.frames)) == After(frames + [body], d)
  {
    assert frames + ([body] + d.frames) == frames + [body] + d.frames;
  }

  lemma ConsumeStep(frames: seq<Bytes>, buffered: Bytes, chunks: seq<Bytes>, maxFrame: nat)
    requires chunks != []
    ensures var d := Decode(buffered + chunks[0], maxFrame);
      After(frames, Consume(buffered, chunks, maxFrame)) ==
        if d.error.Some? then After(frames, d)
        else After(frames + d.frames, Consume(d.rest, chunks[1..], maxFrame))
  {
    hide Decode;
    var d := Decode(buffered + chunks[0], maxFrame);
    if d.error.None? {
      var rest := Consume(d.rest, chunks[1..], maxFrame);
      assert frames + (d.frames + rest.frames) == frames + d.frames + rest.frames;
    }
  }
}
