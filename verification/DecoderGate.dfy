/**
 * Reply before end of stream: the shared gate of src/reactor/direct_plaintext/decoder_gate.rs between
 * decoding and the plaintext and rustls transports, under every order of their steps.
 */
module DecoderGates {
  import opened Common
  import opened Wire
  import opened FrameSpec
  import opened FrameDecoders

  datatype Failure = Truncated | Io(kind: IoKind) | SecurityFailure | OtherTransportFailure

  datatype IoKind = BrokenPipe | ConnectionAborted | ConnectionReset | NotConnected | UnexpectedEof | WriteZero | OtherKind

  predicate IsDeferredTerminal(f: Failure) {
    f.Truncated? || (f.Io? && !f.kind.OtherKind?)
  }

  /** What the socket or TLS session produces when it is driven, read, written or shut down. */
  datatype Arrival = Data(bytes: Bytes) | Eof | Failing(failure: Failure) | Quiet

  datatype Choice =
    | ReadStep(arrival: Arrival)
    | DecodeStep
    | TransportStep(arrival: Arrival)
    | WriteStep(arrival: Arrival)
    | ShutdownStep(arrival: Arrival)

  /** What a step lets the connection engine see. */
  datatype Signal =
    | Progress
    | Refused
    | Reply(body: Bytes)
    | DecodeFailed
    | SawEof
    | Surfaced(failure: Failure)
    | WriteFailed(failure: Failure)
    | ShutdownFailed(failure: Failure)

  class GatedConnection {
    const decoder: KafkaFrameDecoder
    /** The rustls transport holds terminal failures back behind replies; the plaintext transport does not. */
    const deferring: bool
    var pendingDecode: bool
    var pendingError: Option<Failure>

    /** All bytes the decoder accepted, and all frames handed on. */
    ghost var received: Bytes
    ghost var decoded: seq<Bytes>

    ghost predicate Valid()
      reads this, decoder
    {
      // Compared with true so that the conjunction is proved as one obligation.
      true == (
        && decoder.Valid()
        && (decoder.failed ==> decoded == Decode(received, decoder.maxFrame).frames)
        && (!decoder.failed ==>
              Decode(received, decoder.maxFrame) == After(decoded, Decode(decoder.buffered, decoder.maxFrame)))
        && (!pendingDecode ==> decoder.failed || !HeadOf(decoder.buffered, decoder.maxFrame).Complete?)
        && (pendingError.Some? ==> deferring && IsDeferredTerminal(pendingError.value)))
    }

    constructor (decoder: KafkaFrameDecoder, deferring: bool)
      requires decoder.Valid() && decoder.buffered == [] && !decoder.failed
      ensures Valid() && this.decoder == decoder && this.deferring == deferring
      ensures received == [] && decoded == [] && !pendingDecode && pendingError == None
    {
      this.decoder, this.deferring := decoder, deferring;
      pendingDecode, pendingError, received, decoded := false, None, [], [];
    }

    /** Every complete frame among the bytes received was handed on. */
    ghost predicate AllRepliesSeen()
      reads this, decoder
    {
      decoded == Decode(received, decoder.maxFrame).frames
    }

    /** A complete frame is waiting in a decoder that can still decode it. */
    ghost predicate ReplyWaiting()
      reads this, decoder
    {
      !decoder.failed && HeadOf(decoder.buffered, decoder.maxFrame).Complete?
    }

    /** Replies are outstanding exactly while one is waiting. */
    lemma SeenUnlessWaiting()
      requires Valid()
      ensures AllRepliesSeen() <==> !ReplyWaiting()
    {
      if !decoder.failed {
        var rest := Decode(decoder.buffered, decoder.maxFrame).frames;
        assert rest == [] <==> !HeadOf(decoder.buffered, decoder.maxFrame).Complete?;
        assert |decoded + rest| == |decoded| + |rest|;
        assert decoded + [] == decoded;
      }
    }

    /** A clear gate means there is nothing left to hand on. */
    lemma ClearGateMeansSeen()
      requires Valid() && !pendingDecode
      ensures AllRepliesSeen()
    {
      if !decoder.failed {
        assert Decode(decoder.buffered, decoder.maxFrame).frames == [];
        assert decoded + [] == decoded;
      }
    }

    /**
     * `feed` of the gated decoder. Refused bytes clear the gate: that is sound exactly when no reply was
     * waiting, which is why reads are admitted only through a clear gate.
     */
    method Feed(bytes: Bytes) returns (failure: Option<DecodeError>)
      requires Valid()
      modifies this`pendingDecode, this`received, decoder
      ensures decoded == old(decoded)
      ensures failure.None? ==> Valid() && received == old(received) + bytes && pendingDecode
      ensures failure.Some? ==> received == old(received) && !pendingDecode && (Valid() <==> !old(ReplyWaiting()))
      ensures !old(pendingDecode) ==> Valid()
    {
      hide Decode;
      SeenUnlessWaiting();
      ghost var before := decoder.buffered;
      pendingDecode := true;
      failure := decoder.Feed(bytes);
      if failure.Some? {
        pendingDecode := false;
      } else {
        FeedKeeps(received, before, bytes, decoded, decoder.maxFrame);
        received := received + bytes;
      }
    }

    method NextFrame() returns (next: Next)
      requires Valid()
      modifies this`pendingDecode, this`decoded, decoder
      ensures Valid() && received == old(received)
      ensures decoded == if next.Frame? then old(decoded) + [next.body] else old(decoded)
      ensures next.Frame? ==> pendingDecode == old(pendingDecode) && |decoder.buffered| < |old(decoder.buffered)|
      ensures !next.Frame? ==> !pendingDecode
    {
      ghost var before := decoder.buffered;
      next := decoder.NextFrame();
      if !next.Frame? {
        pendingDecode := false;
        assert decoded + [] == decoded;
      } else {
        OneMore(decoded, next.body, Decode(decoder.buffered, decoder.maxFrame));
        decoded := decoded + [next.body];
      }
    }

    /**
     * `drive_transport`, given what the socket or the TLS session would answer: a deferring transport holds
     * terminal failures back behind replies. Any other failure, and any failure of another transport, passes.
     */
    method DriveTransport(arrival: Arrival) returns (signal: Signal)
      requires Valid()
      modifies this`pendingError
      ensures Valid()
      ensures signal.Progress? || signal.Surfaced?
      ensures deferring && signal.Surfaced? && IsDeferredTerminal(signal.failure) ==> !pendingDecode
      ensures old(pendingError).Some? ==> (signal.Surfaced? <==> !pendingDecode)
      ensures deferring && arrival.Failing? && IsDeferredTerminal(arrival.failure) && pendingDecode && old(pendingError).None? ==>
        signal.Progress? && pendingError == Some(arrival.failure)
      ensures !deferring ==> (signal == if arrival.Failing? then Surfaced(arrival.failure) else Progress)
      ensures old(pendingError).None? && PassesOn(arrival, deferring) ==> signal == Surfaced(arrival.failure) && pendingError.None?
      ensures old(pendingError).None? && signal.Surfaced? ==> arrival == Failing(signal.failure)
      ensures old(pendingError).Some? && signal.Surfaced? ==> signal.failure == old(pendingError).value && pendingError.None?
      ensures deferring && pendingDecode && old(pendingError).None? && arrival.Failing? ==>
        (pendingError == Some(arrival.failure) <==>
           arrival.failure in {
             Truncated, Io(BrokenPipe), Io(ConnectionAborted), Io(ConnectionReset), Io(NotConnected), Io(UnexpectedEof), Io(WriteZero)})
    {
      hide HeadOf, Decode;
      if pendingError.Some? {
        if pendingDecode {
          return Progress;
        }
        signal := Surfaced(pendingError.value);
        pendingError := None;
        return;
      }
      if arrival.Failing? {
        if deferring && pendingDecode && IsDeferredTerminal(arrival.failure) {
          pendingError := Some(arrival.failure);
          return Progress;
        }
        return Surfaced(arrival.failure);
      }
      signal := Progress;
    }

    /**
     * The ways past the gate: shutting down with a failure held back or with one of its own, a failed write, and
     * a transport failure that is not held back.
     */
    predicate Bypasses(choice: Choice)
      reads this
    {
      match choice
      case ReadStep(_) => false
      case DecodeStep => false
      case TransportStep(arrival) => pendingError.None? && PassesOn(arrival, deferring)
      case WriteStep(arrival) => arrival.Failing?
      case ShutdownStep(arrival) => pendingError.Some? || arrival.Failing?
    }

    /**
     * One step of the engine, in whatever order it prefers its work. It ends the stream before every reply
     * was seen exactly when it bypasses the gate while a reply is waiting.
     */
    method Step(choice: Choice) returns (signal: Signal)
      requires Valid()
      modifies this, decoder
      ensures Valid()
      ensures Ends(signal) && !AllRepliesSeen() <==> old(Bypasses(choice) && ReplyWaiting())
      ensures decoded == old(decoded) + Replies([signal])
      ensures old(received) <= received && (!choice.ReadStep? ==> received == old(received))
      ensures choice.ReadStep? ==>
        && (signal.Refused? <==> old(pendingDecode))
        && (!old(pendingDecode) && choice.arrival.Eof? ==> signal == SawEof)
        && (!old(pendingDecode) && choice.arrival.Failing? ==> signal == Surfaced(choice.arrival.failure))
        && (!old(pendingDecode) && choice.arrival.Data? && !signal.DecodeFailed? ==> received == old(received) + choice.arrival.bytes)
      ensures choice.TransportStep? && old(pendingError).Some? ==>
        signal == if old(pendingDecode) then Progress else Surfaced(old(pendingError).value)
      ensures choice.WriteStep? && choice.arrival.Failing? ==> signal == WriteFailed(choice.arrival.failure)
      ensures choice.ShutdownStep? && old(pendingError).Some? ==>
        pendingError == None && signal == ShutdownFailed(old(pendingError).value)
      ensures choice.ShutdownStep? && old(pendingError).None? && choice.arrival.Failing? ==>
        signal == ShutdownFailed(choice.arrival.failure)
    {
      hide HeadOf, Decode;
      match choice
      case ReadStep(arrival) =>
        if pendingDecode {
          return Refused;
        }
        ClearGateMeansSeen();
        match arrival {
          case Data(bytes) =>
            var failure := Feed(bytes);
            if !pendingDecode {
              ClearGateMeansSeen();
            }
            signal := if failure.Some? then DecodeFailed else Progress;
          case Eof => signal := SawEof;
          case Failing(failure) => signal := Surfaced(failure);
          case Quiet => signal := Progress;
        }
      case DecodeStep =>
        var next := NextFrame();
        signal := if next.Frame? then Reply(next.body) else if next.NoFrame? then Progress else DecodeFailed;
        if !pendingDecode {
          ClearGateMeansSeen();
        }
      case TransportStep(arrival) =>
        SeenUnlessWaiting();
        signal := DriveTransport(arrival);
        if !pendingDecode {
          ClearGateMeansSeen();
        }
      case WriteStep(arrival) =>
        SeenUnlessWaiting();
        signal := if arrival.Failing? then WriteFailed(arrival.failure) else Progress;
      case ShutdownStep(arrival) =>
        SeenUnlessWaiting();
        if pendingError.Some? {
          signal := ShutdownFailed(pendingError.value);
          pendingError := None;
        } else {
          signal := if arrival.Failing? then ShutdownFailed(arrival.failure) else Progress;
        }
    }

    /**
     * Under every schedule the replies seen are a prefix of the complete frames received; when the stream ends,
     * they are all of them unless the last step bypassed the gate while a reply was waiting.
     */
    method Schedule(choices: seq<Choice>) returns (signals: seq<Signal>, ghost cut: bool)
      requires Valid() && decoded == []
      modifies this, decoder
      ensures Valid() && |signals| <= |choices|
      ensures Replies(signals) <= Decode(received, decoder.maxFrame).frames
      ensures signals != [] && Ends(signals[|signals| - 1]) ==>
        (Replies(signals) == Decode(received, decoder.maxFrame).frames <==> !cut)
      ensures cut ==> signals != [] && ReplyWaiting() && MayBypass(choices[|signals| - 1], deferring)
      ensures forall i :: 0 <= i < |signals| - 1 ==> !Ends(signals[i])
      ensures |signals| < |choices| ==> signals != [] && Ends(signals[|signals| - 1])
      ensures (forall i :: 0 <= i < |choices| ==> !MayBypass(choices[i], deferring)) ==> !cut
    {
      hide HeadOf, Decode;
      signals, cut := [], false;
      for i := 0 to |choices|
        invariant Valid() && |signals| == i && decoded == Replies(signals) && !cut
        invariant forall k :: 0 <= k < |signals| ==> !Ends(signals[k])
      {
        cut := Bypasses(choices[i]) && ReplyWaiting();
        var signal := Step(choices[i]);
        RepliesSnoc(signals, signal);
        signals := signals + [signal];
        if Ends(signal) {
          SeenUnlessWaiting();
          return;
        }
      }
    }

    /** The gate clears after finitely many decode steps, so a deferred failure does surface. */
    method ClearGate() returns (replies: seq<Bytes>)
      requires Valid()
      modifies this`pendingDecode, this`decoded, decoder
      ensures Valid() && !pendingDecode && AllRepliesSeen() && decoded == old(decoded) + replies
    {
      hide HeadOf, Decode;
      replies := [];
      while true
        invariant Valid() && decoded == old(decoded) + replies
        decreases |decoder.buffered|
      {
        var next := NextFrame();
        if !next.Frame? {
          ClearGateMeansSeen();
          return;
        }
        replies := replies + [next.body];
      }
    }
  }

  /** The end of the stream, a decoder that failed, or a failure of the transport, whatever its kind. */
  predicate Ends(signal: Signal) {
    signal.SawEof? || signal.DecodeFailed? || signal.Surfaced? || signal.WriteFailed? || signal.ShutdownFailed?
  }

  /** A failure that is not held back behind replies. */
  predicate PassesOn(arrival: Arrival, deferring: bool) {
    arrival.Failing? && !(deferring && IsDeferredTerminal(arrival.failure))
  }

  /** The steps that bypass the gate in some state. */
  predicate MayBypass(choice: Choice, deferring: bool) {
    || choice.ShutdownStep?
    || (choice.WriteStep? && choice.arrival.Failing?)
    || (choice.TransportStep? && PassesOn(choice.arrival, deferring))
  }

  function Replies(signals: seq<Signal>): seq<Bytes> {
    if signals == [] then []
    else (if signals[0].Reply? then [signals[0].body] else []) + Replies(signals[1..])
  }

  lemma {:induction false} RepliesSnoc(signals: seq<Signal>, signal: Signal)
    ensures Replies(signals + [signal]) == Replies(signals) + Replies([signal])
  {
    if signals == [] {
      assert [] + [signal] == [signal];
    } else {
      RepliesSnoc(signals[1..], signal);
      assert (signals + [signal])[1..] == signals[1..] + [signal];
    }
  }

  /** Accepted bytes extend the stream and the buffer alike. */
  lemma FeedKeeps(received: Bytes, buffered: Bytes, bytes: Bytes, decoded: seq<Bytes>, maxFrame: nat)
    requires Decode(received, maxFrame) == After(decoded, Decode(buffered, maxFrame))
    ensures Decode(received + bytes, maxFrame) == After(decoded, Decode(buffered + bytes, maxFrame))
  {
    hide Decode;
    DecodeConcat(received, bytes, maxFrame);
    DecodeConcat(buffered, bytes, maxFrame);
    var d := Decode(buffered, maxFrame);
    if d.error.None? {
      var last := Decode(d.rest + bytes, maxFrame).frames;
      assert (decoded + d.frames) + last == decoded + (d.frames + last);
    }
  }

  /** One reply, complete in the buffer. */
  const ONE_REPLY: Bytes := [0, 0, 0, 1, 7]

  lemma OneReplyIsComplete(maxFrame: nat)
    requires 1 <= maxFrame
    ensures HeadOf(ONE_REPLY, maxFrame) == Complete([7], [])
  {
    assert Int32At(ONE_REPLY) == 1;
    assert ONE_REPLY[4..5] == [7] && ONE_REPLY[5..] == [];
  }

  /**
   * A reply arrives, the TLS session is found truncated, and the owner shuts down: the failure is handed out
   * while the reply is still undecoded. `fed` is false only if the allocator refused the bytes.
   */
  method ShutdownOvertakesReply(connection: GatedConnection) returns (fed: bool, signal: Signal)
    requires connection.Valid() && connection.deferring && connection.received == [] && connection.decoded == []
    requires !connection.pendingDecode && connection.pendingError == None && !connection.decoder.failed
    requires connection.decoder.buffered == [] && 1 <= connection.decoder.maxFrame && 5 <= connection.decoder.maxInput
    modifies connection, connection.decoder
    ensures fed ==> signal == ShutdownFailed(Truncated) && connection.decoded == []
    ensures fed ==> Decode(connection.received, connection.decoder.maxFrame).frames == [[7]]
  {
    hide HeadOf;
    OneReplyIsComplete(connection.decoder.maxFrame);
    assert [] + ONE_REPLY == ONE_REPLY;
    var failure := connection.Feed(ONE_REPLY);
    fed := failure.None?;
    if !fed {
      return false, Refused;
    }
    var held := connection.DriveTransport(Failing(Truncated));
    signal := connection.Step(ShutdownStep(Quiet));
    assert Decode([], connection.decoder.maxFrame).frames == [];
  }

  /** A reply arrives and is overtaken at once, by every step that bypasses the gate without a failure held back. */
  method StepOvertakesReply(connection: GatedConnection, choice: Choice) returns (fed: bool, signal: Signal)
    requires connection.Valid() && connection.received == [] && connection.decoded == []
    requires !connection.pendingDecode && connection.pendingError == None && !connection.decoder.failed
    requires connection.decoder.buffered == [] && 1 <= connection.decoder.maxFrame && 5 <= connection.decoder.maxInput
    requires connection.Bypasses(choice)
    modifies connection, connection.decoder
    ensures fed ==> Ends(signal) && connection.decoded == []
    ensures fed ==> Decode(connection.received, connection.decoder.maxFrame).frames == [[7]]
  {
    hide HeadOf;
    OneReplyIsComplete(connection.decoder.maxFrame);
    assert [] + ONE_REPLY == ONE_REPLY;
    var failure := connection.Feed(ONE_REPLY);
    fed := failure.None?;
    if !fed {
      return false, Refused;
    }
    signal := connection.Step(choice);
    assert Decode([], connection.decoder.maxFrame).frames == [];
  }
}
