/** Bornera as an unconstrained environment, and how its failures become the driver's own. */
module Engines {
  import opened Common
  import opened Requests
  import opened Contexts
  import opened Wire

  datatype EngineClose =
    | CloseDrained
    | CloseRequested
    | ConnectFailed
    | ConnectTimedOut
    | CloseTransportLost
    | DeadlineAfterPossibleSend
    | UnexpectedReply
    | MalformedReply
    | CloseMatchKeyMismatch(expected: nat, received: nat)
    | CloseOther

  datatype OperationFailure =
    | DeadlineElapsed
    | ClosedUnder(reason: EngineClose)
    | MatchKeyMismatch(expected: nat, received: nat)
    | OtherFailure

  /** What the reply bytes turn out to be when the waiting call decodes them. */
  datatype ReplyBody = Decodes | Undecodable | WrongCorrelation(received: int)

  datatype OperationOutcome =
    | Replied(body: ReplyBody)
    | FailedBy(failure: OperationFailure, delivery: Delivery)
    | Cancelled(delivery: Delivery)
    | WriteComplete(delivery: Delivery)
    | Unrecognised

  /** An outcome, with what the transport's diagnostic shows at the time. */
  datatype EngineOutcome = EngineOutcome(key: Key, outcome: OperationOutcome, diagnostic: Option<TransportFailure>)

  datatype Entry = Entry(operation: nat, delivery: Delivery)

  /** `admitted`: the events of the report opened admission. `reusable`: neither the owner nor its set is lost. */
  datatype Report = Report(
    epoch: nat,
    operations: seq<Entry>,
    unmatchedWrites: seq<Entry>,
    outcomes: seq<EngineOutcome>,
    reason: CloseReason,
    admitted: bool,
    reusable: bool)

  function SentAs(failure: CallFailure, delivery: Delivery): RequestError { Rejected(failure, delivery) }

  function NotSentAs(failure: CallFailure): RequestError { SentAs(failure, NotSent) }

  /** `recovery` of src/reactor/direct_plaintext/failure_translation.rs. */
  function Recovery(reason: CloseReason, delivery: Delivery): RequestError {
    SentAs(ConnectionClosed(reason), delivery)
  }

  function CloseReasonOf(reason: EngineClose): CloseReason {
    match reason
    case CloseDrained => Drained
    case CloseRequested => Requested
    case ConnectFailed => OpenFailed(Other)
    case ConnectTimedOut => OpenFailed(TimedOut)
    case CloseTransportLost => TransportLost(Reset)
    case DeadlineAfterPossibleSend => TransportLost(Other)
    case UnexpectedReply => UnexpectedResponse
    case MalformedReply => MalformedResponse
    case CloseMatchKeyMismatch(e, r) =>
      if CorrelationOf(e).Ok? && CorrelationOf(r).Ok? then CloseCorrelationMismatch(e, r) else MalformedResponse
    case CloseOther => MalformedResponse
  }

  function ConnectionCloseReason(reason: EngineClose, diagnostic: Option<TransportFailure>): CloseReason {
    if reason.ConnectFailed? && diagnostic.Some? then OpenFailed(diagnostic.value)
    else if (reason.CloseTransportLost? || reason.DeadlineAfterPossibleSend?) && diagnostic.Some?
    then TransportLost(diagnostic.value)
    else CloseReasonOf(reason)
  }

  /** What the reason told says about the end of the connection, and whether the transport's own word is in it. */
  lemma ClosesTell(reason: EngineClose, diagnostic: Option<TransportFailure>)
    ensures var told := ConnectionCloseReason(reason, diagnostic);
      && (told.Drained? <==> reason.CloseDrained?) && (told.Requested? <==> reason.CloseRequested?)
      && (told.OpenFailed? <==> reason.ConnectFailed? || reason.ConnectTimedOut?)
      && (told.OpenFailed? ==>
            told.open == if reason.ConnectTimedOut? then TimedOut else if diagnostic.Some? then diagnostic.value else Other)
      && (told.TransportLost? <==> reason.CloseTransportLost? || reason.DeadlineAfterPossibleSend?)
      && (told.TransportLost? ==>
            told.lost == if diagnostic.Some? then diagnostic.value else if reason.CloseTransportLost? then Reset else Other)
      && (told.UnexpectedResponse? <==> reason.UnexpectedReply?)
      && (told.CloseCorrelationMismatch? <==>
            reason.CloseMatchKeyMismatch? && reason.expected <= I32_MAX && reason.received <= I32_MAX)
      && (told.CloseCorrelationMismatch? ==> told == CloseCorrelationMismatch(reason.expected, reason.received))
      && (told.MalformedResponse? <==>
            || reason.MalformedReply? || reason.CloseOther?
            || (reason.CloseMatchKeyMismatch? && !(reason.expected <= I32_MAX && reason.received <= I32_MAX)))
  {
  }

  function Operation(failure: OperationFailure, delivery: Delivery): RequestError {
    match failure
    case DeadlineElapsed => SentAs(DeadlineExceeded, delivery)
    case ClosedUnder(reason) => SentAs(ConnectionClosed(CloseReasonOf(reason)), delivery)
    case MatchKeyMismatch(expected, received) =>
      if CorrelationOf(expected).Ok? && CorrelationOf(received).Ok?
      then SentAs(CorrelationMismatch(expected, received), delivery)
      else IdentityConflict
    case OtherFailure => SentAs(LocallyRejected, delivery)
  }

  /** Translation keeps the engine's delivery except for a mismatch between keys Kafka cannot express. */
  lemma OperationKeepsDelivery(failure: OperationFailure, delivery: Delivery)
    ensures DeliveryOf(Operation(failure, delivery)) == delivery
      <==> (InKeySpace(failure) || delivery == NotSent)
  {
  }

  predicate InKeySpace(failure: OperationFailure) {
    failure.MatchKeyMismatch? ==> failure.expected <= I32_MAX && failure.received <= I32_MAX
  }

  predicate Classified(o: EngineOutcome) {
    o.outcome.FailedBy? ==> InKeySpace(o.outcome.failure)
  }

  predicate SaysNotSent(o: EngineOutcome) {
    match o.outcome
    case FailedBy(_, delivery) => delivery == NotSent
    case Cancelled(delivery) => delivery == NotSent
    case WriteComplete(delivery) => delivery == NotSent
    case _ => false
  }

  /** Every not-sent word in the outcomes is on record, and every mismatch is within the key space. */
  ghost predicate OutcomesVouched(outcomes: seq<EngineOutcome>, notSent: set<Key>) {
    forall i :: 0 <= i < |outcomes| ==> Classified(outcomes[i]) && (SaysNotSent(outcomes[i]) ==> outcomes[i].key in notSent)
  }

  lemma StillVouched(outcomes: seq<EngineOutcome>, before: set<Key>, after: set<Key>)
    requires OutcomesVouched(outcomes, before) && before <= after
    ensures OutcomesVouched(outcomes, after)
  {
  }

  lemma VouchedAt(outcomes: seq<EngineOutcome>, i: nat, notSent: set<Key>)
    requires i < |outcomes| && OutcomesVouched(outcomes, notSent)
    ensures Classified(outcomes[i]) && (SaysNotSent(outcomes[i]) ==> outcomes[i].key in notSent)
  {
  }

  lemma RestVouched(outcomes: seq<EngineOutcome>, n: nat, notSent: set<Key>)
    requires n <= |outcomes| && OutcomesVouched(outcomes, notSent)
    ensures OutcomesVouched(outcomes[n..], notSent) && OutcomesVouched([], notSent)
  {
  }

  ghost predicate EntriesVouched(epoch: nat, entries: seq<Entry>, notSent: set<Key>) {
    forall i :: 0 <= i < |entries| && entries[i].delivery == NotSent ==> Key(epoch, entries[i].operation) in notSent
  }

  ghost predicate Vouched(report: Report, notSent: set<Key>) {
    && OutcomesVouched(report.outcomes, notSent)
    && EntriesVouched(report.epoch, report.operations, notSent)
    && EntriesVouched(report.epoch, report.unmatchedWrites, notSent)
  }

  function OutcomeKeys(outcomes: seq<EngineOutcome>): set<Key> {
    set i | 0 <= i < |outcomes| && SaysNotSent(outcomes[i]) :: outcomes[i].key
  }

  function EntryKeys(epoch: nat, entries: seq<Entry>): set<Key> {
    set i | 0 <= i < |entries| && entries[i].delivery == NotSent :: Key(epoch, entries[i].operation)
  }

  lemma EntriesOnRecord(epoch: nat, entries: seq<Entry>, notSent: set<Key>)
    requires EntryKeys(epoch, entries) <= notSent
    ensures EntriesVouched(epoch, entries, notSent)
  {
    forall i | 0 <= i < |entries| && entries[i].delivery == NotSent ensures Key(epoch, entries[i].operation) in notSent {
      assert Key(epoch, entries[i].operation) in EntryKeys(epoch, entries);
    }
  }

  lemma OutcomesOnRecord(outcomes: seq<EngineOutcome>, notSent: set<Key>)
    requires OutcomeKeys(outcomes) <= notSent
    requires forall i :: 0 <= i < |outcomes| ==> Classified(outcomes[i])
    ensures OutcomesVouched(outcomes, notSent)
  {
    forall i | 0 <= i < |outcomes| && SaysNotSent(outcomes[i]) ensures outcomes[i].key in notSent {
      assert outcomes[i].key in OutcomeKeys(outcomes);
    }
  }

  lemma FreshOperation(accepted: set<Key>, epoch: nat)
    ensures exists operation: nat :: Key(epoch, operation) !in accepted
  {
    var used := set k | k in accepted && k.epoch == epoch :: k.operation;
    var bound := Above(used);
    forall k | k in accepted && k.epoch == epoch ensures k.operation < bound {
      assert k.operation in used;
    }
    assert Key(epoch, bound) !in accepted;
  }

  ghost function Above(s: set<nat>): (bound: nat)
    ensures forall x :: x in s ==> x < bound
    decreases |s|
  {
    if s == {} then 0
    else
      var x :| x in s;
      var rest := Above(s - {x});
      assert forall y :: y in s ==> y == x || y in s - {x};
      if x < rest then rest else x + 1
  }

  datatype CommitAnswer =
    | Accepted(operation: nat)
    | AcceptedOwnerFailure(operation: nat)
    | FrameRejected
    | CommitOwnerFailed
    | CommitStale
    | CommitOther

  datatype ReserveAnswer = Permit(matchKey: nat) | ReserveStale | ReservePoisoned | ReserveRefused(error: RequestError)

  datatype Access = Fine | AccessStale | AccessOwnerFailed | AccessOther

  datatype Drained<+T> = Batch(items: seq<T>) | DrainStale | DrainFailed

  datatype EngineEvent =
    | TransportOpened
    | AdmissionOpened
    | Closing(reason: EngineClose)
    | ClosedEvent(reason: EngineClose, diagnostic: Option<TransportFailure>)
    | OtherEpoch

  datatype SessionEffect = Exchange | DeadlineChange | BecameReady | DrainSession | EndSession(reason: CloseReason)

  /** A frame offered to the engine, with the correlation id it carries. */
  datatype FrameOffer = FrameOffer(epoch: nat, correlation: int, answer: CommitAnswer)

  /** Version selection, measuring and encoding of one request. */
  datatype Preparation = Preparation(selection: Option<RequestError>, preparation: Option<RequestError>, encoded: bool)

  predicate Local(refusal: Option<RequestError>) { refusal.Some? ==> DeliveryOf(refusal.value) == NotSent }

  /** One turn of the selector shared by the lanes of a set. */
  datatype SetTurn = SetTurn(connected: bool, failed: bool)

  /** How the session machine takes the end of its connection. */
  datatype SessionEnd = SessionEnd(accepted: bool, recorded: Option<CloseReason>)

  /** How it takes the engine's own drain. */
  datatype SessionDrain = SessionDrain(draining: bool, expected: bool)

  /** How the broker machine takes the end of a generation. */
  datatype Policy = Policy(accepted: bool, exhausted: bool, gaveUp: bool, interpreted: bool)

  datatype OpenAnswer = Connected(epoch: nat) | EndpointRefused(reason: CloseReason) | ConnectFatal

  datatype Timer = Timer(due: bool, rejected: bool)

  /** Everything a lane asked of what is around it, and the answers, oldest first. */
  datatype Record = Record(
    preparations: seq<Preparation>,
    permits: seq<ReserveAnswer>,
    commits: seq<FrameOffer>,
    touches: seq<Access>,
    surrenders: seq<Option<Report>>,
    outcomeDrains: seq<Drained<EngineOutcome>>,
    eventDrains: seq<Drained<EngineEvent>>,
    turns: seq<SetTurn>,
    effects: seq<seq<SessionEffect>>,
    sessionEnds: seq<SessionEnd>,
    sessionDrains: seq<SessionDrain>,
    policies: seq<Policy>,
    openings: seq<OpenAnswer>,
    timers: seq<Timer>,
    sessionTimers: seq<bool>)

  const NOTHING_ASKED := Record([], [], [], [], [], [], [], [], [], [], [], [], [], [], [])

  /**
   * The connection engine and the machines around a lane answer as they like, with three promises of the engine: an
   * accepted operation id is new within its epoch; whatever it reports as not sent it has put on record as not sent;
   * and the match keys of a mismatch lie in the configured key space 0..=i32::MAX. Every answer is recorded.
   */
  class Engine {
    var accepted: set<Key>
    var notSent: set<Key>
    var record: Record

    constructor ()
      ensures accepted == {} && notSent == {} && record == NOTHING_ASKED
    {
      accepted, notSent, record := {}, {}, NOTHING_ASKED;
    }

    method Prepare() returns (p: Preparation)
      modifies this`record
      ensures Local(p.selection) && Local(p.preparation)
      ensures record == old(record).(preparations := old(record).preparations + [p])
    {
      p := *;
      if !Local(p.selection) || !Local(p.preparation) {
        p := Preparation(None, None, true);
      }
      record := record.(preparations := record.preparations + [p]);
    }

    method ReserveOperation() returns (answer: ReserveAnswer)
      modifies this`record
      ensures answer.ReserveRefused? ==> DeliveryOf(answer.error) == NotSent
      ensures record == old(record).(permits := old(record).permits + [answer])
    {
      answer := *;
      if answer.ReserveRefused? && DeliveryOf(answer.error) != NotSent {
        answer := ReserveStale;
      }
      record := record.(permits := record.permits + [answer]);
    }

    method Commit(epoch: nat, correlation: int) returns (answer: CommitAnswer)
      modifies this`accepted, this`record
      ensures answer.Accepted? || answer.AcceptedOwnerFailure? ==>
        && Key(epoch, answer.operation) !in old(accepted)
        && accepted == old(accepted) + {Key(epoch, answer.operation)}
      ensures !(answer.Accepted? || answer.AcceptedOwnerFailure?) ==> accepted == old(accepted)
      ensures record == old(record).(commits := old(record).commits + [FrameOffer(epoch, correlation, answer)])
    {
      answer := *;
      if answer.Accepted? || answer.AcceptedOwnerFailure? {
        FreshOperation(accepted, epoch);
        var operation: nat :| Key(epoch, operation) !in accepted;
        answer := if answer.Accepted? then Accepted(operation) else AcceptedOwnerFailure(operation);
        accepted := accepted + {Key(epoch, operation)};
      }
      record := record.(commits := record.commits + [FrameOffer(epoch, correlation, answer)]);
    }

    method Touch() returns (answer: Access)
      modifies this`record
      ensures record == old(record).(touches := old(record).touches + [answer])
    {
      answer := *;
      record := record.(touches := record.touches + [answer]);
    }

    /** `try_recover` and `abandon`: a report of everything the engine still owned, or a refusal. */
    method Surrender() returns (report: Option<Report>)
      modifies this`notSent, this`record
      ensures old(notSent) <= notSent
      ensures report.Some? ==> Vouched(report.value, notSent)
      ensures record == old(record).(surrenders := old(record).surrenders + [report])
    {
      var some: bool := *;
      report := None;
      if some {
        var outcomes := Outcomes();
        var r: Report := *;
        r := r.(outcomes := outcomes);
        notSent := notSent + EntryKeys(r.epoch, r.operations) + EntryKeys(r.epoch, r.unmatchedWrites);
        EntriesOnRecord(r.epoch, r.operations, notSent);
        EntriesOnRecord(r.epoch, r.unmatchedWrites, notSent);
        report := Some(r);
      }
      record := record.(surrenders := record.surrenders + [report]);
    }

    method Outcomes() returns (outcomes: seq<EngineOutcome>)
      modifies this`notSent
      ensures old(notSent) <= notSent && OutcomesVouched(outcomes, notSent)
    {
      outcomes := *;
      if exists i :: 0 <= i < |outcomes| && !Classified(outcomes[i]) {
        outcomes := [];
      }
      notSent := notSent + OutcomeKeys(outcomes);
      OutcomesOnRecord(outcomes, notSent);
    }

    method DrainOutcomes() returns (drained: Drained<EngineOutcome>)
      modifies this`notSent, this`record
      ensures old(notSent) <= notSent
      ensures drained.Batch? ==> OutcomesVouched(drained.items, notSent)
      ensures record == old(record).(outcomeDrains := old(record).outcomeDrains + [drained])
    {
      drained := *;
      if drained.Batch? {
        var outcomes := Outcomes();
        drained := Batch(outcomes);
      }
      record := record.(outcomeDrains := record.outcomeDrains + [drained]);
    }

    method DrainEvents() returns (drained: Drained<EngineEvent>)
      modifies this`record
      ensures record == old(record).(eventDrains := old(record).eventDrains + [drained])
    {
      drained := *;
      record := record.(eventDrains := record.eventDrains + [drained]);
    }

    method TakeTurn() returns (turn: SetTurn)
      modifies this`record
      ensures record == old(record).(turns := old(record).turns + [turn])
    {
      turn := *;
      record := record.(turns := record.turns + [turn]);
    }

    /** The session machine may answer any input with any effects. */
    method Effects() returns (effects: seq<SessionEffect>)
      modifies this`record
      ensures record == old(record).(effects := old(record).effects + [effects])
    {
      effects := *;
      record := record.(effects := record.effects + [effects]);
    }

    method EndSession() returns (end: SessionEnd)
      modifies this`record
      ensures record == old(record).(sessionEnds := old(record).sessionEnds + [end])
    {
      end := *;
      record := record.(sessionEnds := record.sessionEnds + [end]);
    }

    method DrainSession() returns (drain: SessionDrain)
      modifies this`record
      ensures record == old(record).(sessionDrains := old(record).sessionDrains + [drain])
    {
      drain := *;
      record := record.(sessionDrains := record.sessionDrains + [drain]);
    }

    method Decide() returns (policy: Policy)
      modifies this`record
      ensures record == old(record).(policies := old(record).policies + [policy])
    {
      policy := *;
      record := record.(policies := record.policies + [policy]);
    }

    method Connect() returns (answer: OpenAnswer)
      modifies this`record
      ensures record == old(record).(openings := old(record).openings + [answer])
    {
      answer := *;
      record := record.(openings := record.openings + [answer]);
    }

    method ReadTimer() returns (timer: Timer)
      modifies this`record
      ensures record == old(record).(timers := old(record).timers + [timer])
    {
      timer := *;
      record := record.(timers := record.timers + [timer]);
    }

    method ReadSessionTimer() returns (due: bool)
      modifies this`record
      ensures record == old(record).(sessionTimers := old(record).sessionTimers + [due])
    {
      due := *;
      record := record.(sessionTimers := record.sessionTimers + [due]);
    }
  }

  /** `CausalSequence` of src/reactor/causality.rs. */
  class CausalSequence {
    var next: nat

    constructor ()
      ensures next == 1
    {
      next := 1;
    }

    /** The next position, unless the counter is exhausted. */
    method Reserve() returns (stamp: Option<Stamp>)
      requires next <= U64_MAX
      modifies this
      ensures next <= U64_MAX
      ensures stamp.Some? <==> old(next) < U64_MAX
      ensures stamp.Some? ==> stamp.value == old(next) && next == old(next) + 1
      ensures stamp.None? ==> next == old(next)
    {
      if next == U64_MAX {
        return None;
      }
      stamp := Some(next);
      next := next + 1;
    }
  }
}
