/**
 * The steps of one lane as relations between what it shows before and after: what each answer of the engine and of the
 * machines around it makes of a call, a session and a generation.
 */
module LaneSteps {
  import opened Common
  import opened Requests
  import opened WaitQueueSpec
  import opened RouteWaitingCalls
  import opened PendingCalls
  import opened Contexts
  import opened LaneBooks
  import opened Wire
  import opened Engines
  import opened Endings

  datatype PolicyClose = ByRequest | ByRejection | GaveUp

  datatype Phase = Connecting | Available | DrainingPhase | Backoff | Refreshing | PhaseClosed(why: PolicyClose)

  predicate LivePhase(p: Phase) { p.Connecting? || p.Available? || p.DrainingPhase? }

  datatype PendingRecovery = PendingRecovery(report: Report, diverged: bool)

  /** What a lane shows of itself, its ledger and its dealings with the engine. */
  datatype Face = Face(
    connection: Option<nat>,
    phase: Phase,
    ready: bool,
    open: bool,
    terminal: bool,
    recovery: Option<PendingRecovery>,
    close: Option<CloseReason>,
    last: Option<CloseReason>,
    settled: seq<Settlement>,
    queue: Fifo<WaitingCall>,
    contents: map<Key, Context>,
    given: set<CallId>,
    frames: map<CallId, Key>,
    accepted: set<Key>,
    record: Record)

  /** A public operation is refused from now on. */
  predicate IsTerminal(a: Face) { a.terminal || a.phase.PhaseClosed? }

  /** A call may go out. */
  predicate IsReady(a: Face) {
    a.recovery.None? && a.connection.Some? && LivePhase(a.phase) && a.ready && a.open
  }

  function Last<T>(s: seq<T>): T
    requires s != []
  {
    s[|s| - 1]
  }

  /** One more answer was given. */
  ghost predicate One<T>(before: seq<T>, after: seq<T>) { after != [] && after == before + [Last(after)] }

  // ------------------------------------------------------------------ what callers are told

  function TerminalFailure(why: PolicyClose, preceding: CloseReason): RequestError {
    match why
    case ByRejection => Recovery(preceding, NotSent)
    case ByRequest => NotSentAs(Draining)
    case GaveUp => NotSentAs(Closed)
  }

  /** What a call given to a terminal lane is told: a rejected identity says so, anything else is closed. */
  function TerminalRefusal(last: Option<CloseReason>): RequestError {
    if last.Some? && last.value.AuthenticationFailed? then Recovery(last.value, NotSent) else NotSentAs(Closed)
  }

  /** What a call is told when its frame was not accepted. */
  function RefusedCommit(answer: CommitAnswer): (e: RequestError)
    ensures DeliveryOf(e) == NotSent
  {
    match answer
    case CommitStale => NotSentAs(Closed)
    case FrameRejected => NotSentAs(LocallyRejected)
    case CommitOwnerFailed => NotSentAs(LocallyRejected)
    case _ => IdentityConflict
  }

  /** What a call is told when the engine grants it no operation. */
  function RefusedPermit(answer: ReserveAnswer): RequestError
    requires !answer.Permit?
  {
    if answer.ReserveRefused? then answer.error
    else if answer.ReserveStale? then NotSentAs(Closed)
    else NotSentAs(LocallyRejected)
  }

  /** Why a ready lane does not offer a call to its engine: version selection, the deadline, then preparation. */
  function LocalRefusal(selection: Option<RequestError>, r: Request, now: Moment, preparation: Option<RequestError>):
    Option<RequestError>
  {
    var deadline := Establish(r, now);
    if selection.Some? then selection
    else if deadline.None? then Some(DeadlineOverflow)
    else if deadline.value <= now then Some(EXPIRED)
    else preparation
  }

  /** The words of a refusal, spelled out. */
  lemma RefusalsTell(preceding: CloseReason, e: RequestError)
    ensures TerminalFailure(ByRejection, preceding) == Rejected(ConnectionClosed(preceding), NotSent)
    ensures TerminalFailure(ByRequest, preceding) == Rejected(CallFailure.Draining, NotSent)
    ensures TerminalFailure(GaveUp, preceding) == Rejected(CallFailure.Closed, NotSent)
    ensures RefusedCommit(CommitStale) == Rejected(CallFailure.Closed, NotSent)
    ensures RefusedCommit(FrameRejected) == RefusedCommit(CommitOwnerFailed) == Rejected(LocallyRejected, NotSent)
    ensures RefusedCommit(CommitOther) == IdentityConflict
    ensures RefusedPermit(ReserveStale) == Rejected(CallFailure.Closed, NotSent)
    ensures RefusedPermit(ReservePoisoned) == Rejected(LocallyRejected, NotSent)
    ensures RefusedPermit(ReserveRefused(e)) == e
    ensures TerminalRefusal(Some(preceding)) == TerminalRefusal(None) <==> !preceding.AuthenticationFailed?
    ensures TerminalRefusal(None) == Rejected(CallFailure.Closed, NotSent)
    ensures preceding.AuthenticationFailed? ==> TerminalRefusal(Some(preceding)) == Rejected(ConnectionClosed(preceding), NotSent)
  {
  }

  /** A call is offered exactly while its deadline lies ahead and nothing was found against it; version errors first. */
  lemma LocalRefusalTells(selection: Option<RequestError>, r: Request, now: Moment, preparation: Option<RequestError>)
    ensures var refusal := LocalRefusal(selection, r, now, preparation);
      && (refusal.None? <==>
            selection.None? && preparation.None? && Establish(r, now).Some? && Establish(r, now).value > now)
      && (selection.Some? ==> refusal == selection)
      && (selection.None? && Establish(r, now).Some? && Establish(r, now).value <= now ==>
            refusal == Some(Rejected(DeadlineExceeded, NotSent)))
      && (selection.None? && Establish(r, now).None? ==> refusal == Some(DeadlineOverflow))
  {
  }

  // ------------------------------------------------------------------ what was asked of the engine

  ghost predicate OnlyTouched(a: Record, b: Record) {
    b == a.(touches := b.touches, surrenders := b.surrenders, sessionEnds := b.sessionEnds)
  }

  /** Besides that, operations were asked for, prepared and offered. */
  ghost predicate OnlyOffered(a: Record, b: Record) {
    b == a.(touches := b.touches, surrenders := b.surrenders, sessionEnds := b.sessionEnds, permits := b.permits,
            preparations := b.preparations, commits := b.commits)
  }

  /** Besides that, the session machine was asked for effects. */
  ghost predicate OnlySession(a: Record, b: Record) {
    b == a.(touches := b.touches, surrenders := b.surrenders, sessionEnds := b.sessionEnds, permits := b.permits,
            preparations := b.preparations, commits := b.commits, effects := b.effects)
  }

  /** Besides that, the session and broker machines were told of an end. */
  ghost predicate OnlyEvents(a: Record, b: Record) {
    b == a.(touches := b.touches, surrenders := b.surrenders, sessionEnds := b.sessionEnds, permits := b.permits,
            preparations := b.preparations, commits := b.commits, effects := b.effects,
            sessionDrains := b.sessionDrains, policies := b.policies)
  }

  /**
   * No call is given or put into an empty queue, no completion or acceptance is taken back, and a key that had been
   * accepted is not published again once its context was released.
   */
  ghost predicate Forward(a: Face, b: Face) {
    && b.given == a.given && a.settled <= b.settled && a.accepted <= b.accepted
    && (a.queue.items == [] ==> b.queue.items == [])
    && b.contents.Keys * a.accepted <= a.contents.Keys
  }

  /** Besides that, no call's frame was accepted, a lane that is over stays so, and no connection is a new one. */
  ghost predicate Calm(a: Face, b: Face) {
    && Forward(a, b) && b.frames == a.frames && (a.terminal ==> b.terminal)
    && (b.connection.Some? ==> b.connection == a.connection && (a.recovery.None? ==> b.recovery.None?))
  }

  /** Nothing was queued or taken from the queue, unless the lane is over. */
  ghost predicate Still(a: Face, b: Face) { !b.terminal ==> b.queue == a.queue }

  /** Every queued call ended with the one error, oldest first. */
  ghost predicate QueueEnded(a: Face, b: Face, error: RequestError) {
    b.queue.items == [] && Told(b.settled) == Told(a.settled) + AllEnd(CallsOf(a.queue.items), error)
  }

  // ------------------------------------------------------------------ ends of a generation

  /** The reason told when nothing better is known: the session's, then that of the last close. */
  function Fallback(close: Option<CloseReason>, last: Option<CloseReason>): CloseReason {
    if close.Some? then close.value else if last.Some? then last.value else TransportLost(Other)
  }

  lemma FallbackTells(close: Option<CloseReason>, last: Option<CloseReason>)
    ensures close.Some? ==> Fallback(close, last) == close.value
    ensures close.None? && last.Some? ==> Fallback(close, last) == last.value
    ensures close.None? && last.None? ==> Fallback(close, last) == TransportLost(Other)
  {
  }

  ghost predicate EveryoneToldVia(a: Face, b: Face, reason: CloseReason, owners: seq<Settlement>) {
    && FailedSince(a.settled, owners, Recovery(reason, PossiblySent))
    && a.settled <= owners <= b.settled && QueueEnded(a.(settled := owners), b, Recovery(reason, NotSent))
  }

  /** The published calls end as possibly sent, then the queued ones as not sent, all for the one reason. */
  ghost predicate EveryoneTold(a: Face, b: Face, reason: CloseReason) {
    exists owners :: EveryoneToldVia(a, b, reason, owners)
  }

  lemma EveryoneToldSince(a: Face, mid: Face, b: Face, reason: CloseReason)
    requires mid.settled == a.settled && mid.queue == a.queue && EveryoneTold(mid, b, reason)
    ensures EveryoneTold(a, b, reason) && a.settled <= b.settled && b.queue.items == []
  {
    var owners :| EveryoneToldVia(mid, b, reason, owners);
    assert EveryoneToldVia(a, b, reason, owners);
  }

  /** The session machine was told of the end; a reason it recorded counts. */
  ghost function SessionTold(a: Face, e: SessionEnd): Face {
    a.(ready := false, close := if e.accepted && e.recorded.Some? then e.recorded else a.close,
       record := a.record.(sessionEnds := a.record.sessionEnds + [e]))
  }

  /** The session ended, everyone was told the fallback reason, and the lane is over. */
  ghost predicate Over(a: Face, b: Face) {
    && One(a.record.sessionEnds, b.record.sessionEnds) && a.settled <= b.settled && b.queue.items == []
    && var reason := Fallback(a.close, a.last);
      && EveryoneTold(a, b, reason)
      && b == SessionTold(a, Last(b.record.sessionEnds)).(
                connection := None, open := false, terminal := true, last := Some(reason), settled := b.settled,
                queue := b.queue, contents := map[])
  }

  /** Everyone was told the fallback reason, the lane is over, and nothing else was changed. */
  ghost predicate HostFailed(a: Face, b: Face) {
    && b == a.(terminal := true, open := false, contents := map[], settled := b.settled, queue := b.queue)
    && a.settled <= b.settled && b.queue.items == [] && EveryoneTold(a, b, Fallback(a.close, a.last))
  }

  /** The connection was given up: captured with the engine's report and nothing else touched, or the lane is over. */
  ghost predicate GivenUp(a: Face, b: Face, diverged: bool, ok: bool) {
    && One(a.record.surrenders, b.record.surrenders)
    && var asked, report := a.record.(surrenders := b.record.surrenders), Last(b.record.surrenders);
      && (ok <==> report.Some?)
      && (if report.Some? then
            b == a.(connection := None, open := false, record := asked,
                    recovery := Some(PendingRecovery(report.value, diverged || a.connection != Some(report.value.epoch))))
          else Over(a.(record := asked), b))
  }

  /** The broker machine takes the end of the generation: it is live, and a rejection came while connecting. */
  predicate GenerationEnds(phase: Phase, reason: CloseReason, p: Policy) {
    LivePhase(phase) && p.accepted && !(phase.Available? && reason == AuthenticationFailed(true))
  }

  /** A drained or requested end closes by request, a permanent rejection for good; anything else is tried again. */
  function AfterGeneration(phase: Phase, reason: CloseReason, p: Policy): Phase {
    if phase.DrainingPhase? || reason.Drained? || reason.Requested? then PhaseClosed(ByRequest)
    else if reason == AuthenticationFailed(true) then PhaseClosed(ByRejection)
    else if p.gaveUp then PhaseClosed(GaveUp)
    else if p.exhausted then Refreshing
    else Backoff
  }

  /** The broker policy closed: every queued call was told why. */
  ghost predicate ClosedAs(a: Face, b: Face, next: Phase, reason: CloseReason) {
    next.PhaseClosed? && b.phase == next && QueueEnded(a, b, TerminalFailure(next.why, reason))
  }

  /**
   * What the broker policy makes of a generation that ended for `reason`: it waits for the next one with nothing else
   * changed, or closes; what it refuses, and an effect that fails, ends the lane.
   */
  ghost predicate Resumed(a: Face, b: Face, reason: CloseReason, ok: bool) {
    && One(a.record.policies, b.record.policies)
    && var p, asked := Last(b.record.policies), a.record.(policies := b.record.policies);
      var next := AfterGeneration(a.phase, reason, p);
      if GenerationEnds(a.phase, reason, p) && p.interpreted && !next.PhaseClosed?
      then ok && b == a.(phase := next, record := asked)
      else
        && b == a.(phase := b.phase, open := b.open, terminal := true, settled := b.settled, queue := b.queue, record := asked)
        && a.settled <= b.settled && b.queue.items == []
        && (ok ==> GenerationEnds(a.phase, reason, p) && p.interpreted && ClosedAs(a, b, next, reason))
  }

  /** Nothing about the recovery stands in the way of a next generation. */
  predicate Clean(recovery: PendingRecovery, present: set<Key>) {
    !recovery.diverged && recovery.report.reusable && NamesExactly(ReportNames(recovery.report), present)
  }

  function AdmittedPhase(phase: Phase, recovery: PendingRecovery): Phase {
    if !recovery.diverged && recovery.report.admitted && phase.Connecting? then Available else phase
  }

  /** An admission that opened before the recovery counts, if the recovery is sound. */
  lemma AdmittedTells(phase: Phase, recovery: PendingRecovery)
    ensures AdmittedPhase(phase, recovery) != phase <==> phase.Connecting? && recovery.report.admitted && !recovery.diverged
    ensures AdmittedPhase(phase, recovery) in {phase, Available}
  {
  }

  lemma AdmittedLive(phase: Phase, recovery: PendingRecovery)
    requires LivePhase(phase)
    ensures LivePhase(AdmittedPhase(phase, recovery))
  {
  }

  function FirstKnown(known: Option<CloseReason>, otherwise: CloseReason): CloseReason {
    if known.Some? then known.value else otherwise
  }

  datatype Opening = Opened(epoch: nat) | EndpointFailed(reason: CloseReason) | OpenFatal | OwnershipInvalid

  /** The engine was asked for a connection. */
  ghost predicate OpenAttempted(a: Face, b: Face, opening: Opening) {
    && One(a.record.openings, b.record.openings)
    && var asked := a.(record := a.record.(openings := b.record.openings));
      match Last(b.record.openings)
      case Connected(epoch) =>
        && opening == Opened(epoch)
        && b == asked.(connection := Some(epoch), ready := false, open := false, terminal := false, recovery := None,
                       close := None)
      case EndpointRefused(reason) => opening == EndpointFailed(reason) && b == asked.(last := Some(reason))
      case ConnectFatal => opening == OpenFatal && b == asked
  }

  /** What the attempt to open a generation came to. */
  ghost predicate OpenedOrEnded(a: Face, b: Face, ok: bool) {
    && One(a.record.openings, b.record.openings)
    && var asked := a.(record := a.record.(openings := b.record.openings));
      match Last(b.record.openings)
      case Connected(epoch) =>
        && ok
        && b == asked.(connection := Some(epoch), ready := false, open := false, terminal := false, recovery := None,
                       close := None)
      case ConnectFatal => !ok && HostFailed(asked, b)
      case EndpointRefused(reason) =>
        && One(a.record.policies, b.record.policies)
        && var p := Last(b.record.policies);
          var next := AfterGeneration(Connecting, reason, p);
          var told := asked.(last := Some(reason), record := asked.record.(policies := b.record.policies));
          if p.accepted && !next.PhaseClosed? then ok && b == told.(phase := next)
          else
            && b == told.(phase := b.phase, open := b.open, terminal := true, settled := b.settled, queue := b.queue)
            && a.settled <= b.settled && b.queue.items == [] && (ok ==> p.accepted && ClosedAs(a, b, next, reason))
  }

  /** A new generation is opened exactly when its time has come; a refused timer ends the lane. */
  ghost predicate Reconnected(a: Face, b: Face, ok: bool) {
    && One(a.record.timers, b.record.timers)
    && var timer, asked := Last(b.record.timers), a.(record := a.record.(timers := b.record.timers));
      if !timer.due || !(a.phase.Backoff? || a.phase.Refreshing?) then ok && b == asked
      else if timer.rejected then !ok && HostFailed(asked, b)
      else OpenedOrEnded(asked.(phase := Connecting), b, ok)
  }

  // ------------------------------------------------------------------ the session

  /** The engine was asked about the live connection once. */
  ghost predicate AskedEngine(a: Face, b: Face, ok: bool) {
    && One(a.record.touches, b.record.touches)
    && var asked := a.(record := a.record.(touches := b.record.touches));
      match Last(b.record.touches)
      case Fine => ok && b == asked
      case AccessOther => !ok && b == asked
      case AccessStale => !ok && Over(asked, b)
      case AccessOwnerFailed => GivenUp(asked, b, false, ok)
  }

  /** The session is closed for a reason, and the engine told. */
  ghost predicate SessionCloses(a: Face, b: Face, reason: CloseReason, ok: bool) {
    AskedEngine(a.(open := false, ready := false, close := Some(reason)), b, ok)
  }

  /** A stale connection ends the lane, a poisoned owner gives it up, anything else closes the session. */
  ghost predicate TurnedDown(a: Face, b: Face, stale: bool, poisoned: bool, ok: bool) {
    if stale then !ok && Over(a, b)
    else if poisoned then GivenUp(a, b, false, ok)
    else SessionCloses(a, b, NegotiationFailed, ok)
  }

  function TakesFrame(answer: CommitAnswer): Option<nat> {
    match answer
    case Accepted(operation) => Some(operation)
    case AcceptedOwnerFailure(operation) => Some(operation)
    case _ => None
  }

  /** A frame was offered to the engine over the live connection, once. */
  ghost predicate FrameOffered(a: Face, b: Face, correlation: int) {
    && a.connection.Some? && One(a.record.commits, b.record.commits)
    && var answer := Last(b.record.commits).answer;
      && Last(b.record.commits) == FrameOffer(a.connection.value, correlation, answer)
      && (TakesFrame(answer).Some? ==> Key(a.connection.value, TakesFrame(answer).value) !in a.accepted)
  }

  /** The face once the engine has answered a frame, and before anything follows from it. */
  ghost function OnceOffered(a: Face, b: Face): Face
    requires a.connection.Some? && b.record.commits != []
  {
    var taken := TakesFrame(Last(b.record.commits).answer);
    a.(record := a.record.(commits := b.record.commits),
       accepted := if taken.Some? then a.accepted + {Key(a.connection.value, taken.value)} else a.accepted)
  }

  /** An accepted session operation is published under its key; any other answer leaves the ledger as it was. */
  ghost predicate ExchangeOffered(a: Face, b: Face, correlation: int, ok: bool) {
    && FrameOffered(a, b, correlation)
    && var asked, answer := OnceOffered(a, b), Last(b.record.commits).answer;
      match answer
      case Accepted(operation) =>
        ok && b == asked.(contents := a.contents[Key(a.connection.value, operation) := Session])
      case AcceptedOwnerFailure(operation) =>
        GivenUp(asked.(contents := a.contents[Key(a.connection.value, operation) := Session]), b, false, ok)
      case _ => TurnedDown(asked, b, answer.CommitStale?, false, ok)
  }

  ghost predicate ExchangeCommitted(a: Face, b: Face, ok: bool) {
    && One(a.record.permits, b.record.permits) && One(a.record.preparations, b.record.preparations)
    && var permit, p := Last(b.record.permits), Last(b.record.preparations);
      var asked := a.(record := a.record.(permits := b.record.permits, preparations := b.record.preparations));
      if permit.Permit? && CorrelationOf(permit.matchKey).Ok? && p.encoded
      then ExchangeOffered(asked, b, CorrelationOf(permit.matchKey).value, ok)
      else TurnedDown(asked, b, permit.ReserveStale?, permit.ReservePoisoned?, ok)
  }

  /** A session exchange; without a place in the ledger the session is closed. */
  ghost predicate Exchanged(a: Face, b: Face, place: bool, ok: bool) {
    if place then ExchangeCommitted(a, b, ok) else SessionCloses(a, b, NegotiationFailed, ok)
  }

  /** One effect of the session machine. */
  ghost predicate EffectApplied(a: Face, b: Face, effect: SessionEffect, place: bool, ok: bool) {
    if effect.DeadlineChange? then ok && b == a
    else if a.connection.None? then !ok && b == a
    else match effect
      case Exchange => Exchanged(a, b, place, ok)
      case BecameReady =>
        if a.phase.Connecting? then AskedEngine(a.(phase := Available, ready := true), b, ok) else !ok && b == a
      case DrainSession => AskedEngine(a.(open := false), b, ok)
      case EndSession(reason) => SessionCloses(a, b, reason, ok)
  }

  /** Effects in order, up to the first that fails. */
  ghost predicate EffectsApplied(a: Face, b: Face, effects: seq<SessionEffect>, ok: bool)
    decreases |effects|
  {
    if effects == [] then ok && b == a
    else exists mid: Face, place: bool, first: bool ::
      && EffectApplied(a, mid, effects[0], place, first)
      && if first then EffectsApplied(mid, b, effects[1..], ok) else !ok && b == mid
  }

  /** The session machine was given an input, and its effects applied. */
  ghost predicate SessionRan(a: Face, b: Face, ok: bool) {
    && One(a.record.effects, b.record.effects)
    && EffectsApplied(a.(record := a.record.(effects := b.record.effects)), b, Last(b.record.effects), ok)
  }

  // ------------------------------------------------------------------ one call

  /** The call ended with an error, and nothing else happened. */
  ghost predicate JustEnded(a: Face, b: Face, call: CallId, error: RequestError, ok: bool) {
    ok && b == a.(settled := a.settled + [Fail(call, error, None)])
  }

  /** The call ended with an error, before everything else the lane had to complete. */
  ghost predicate EndedWithLane(a: Face, b: Face, call: CallId, error: RequestError) {
    exists stamp :: Over(a.(settled := a.settled + [Fail(call, error, stamp)]), b)
  }

  /**
   * The frame of a call was offered once, and the answer decided: accepted means waiting under its key, bound to the
   * correlation the frame carries, with nobody told anything; anything else ended the call with the refusal's error.
   */
  ghost predicate Committed(a: Face, b: Face, call: CallId, correlation: int, ok: bool) {
    && FrameOffered(a, b, correlation)
    && var asked, answer := OnceOffered(a, b), Last(b.record.commits).answer;
      match answer
      case Accepted(operation) => ok && b == AwaitsReply(asked, call, Key(a.connection.value, operation), correlation)
      case AcceptedOwnerFailure(operation) =>
        GivenUp(AwaitsReply(asked, call, Key(a.connection.value, operation), correlation), b, false, ok)
      case _ => CommitTurnedDown(asked, b, call, answer, ok)
  }

  /** The call ended with the refusal's error; a stale connection ends the lane too, and a failed owner is given up. */
  ghost predicate CommitTurnedDown(a: Face, b: Face, call: CallId, answer: CommitAnswer, ok: bool) {
    match answer
    case CommitStale => !ok && EndedWithLane(a, b, call, RefusedCommit(answer))
    case CommitOwnerFailed => GivenUp(a.(settled := a.settled + [Fail(call, RefusedCommit(answer), None)]), b, false, ok)
    case _ => JustEnded(a, b, call, RefusedCommit(answer), ok)
  }

  ghost predicate PermitTurnedDown(a: Face, b: Face, call: CallId, permit: ReserveAnswer, ok: bool)
    requires !permit.Permit?
  {
    match permit
    case ReserveStale => !ok && EndedWithLane(a, b, call, RefusedPermit(permit))
    case ReservePoisoned => GivenUp(a.(settled := a.settled + [Fail(call, RefusedPermit(permit), None)]), b, false, ok)
    case ReserveRefused(error) => JustEnded(a, b, call, RefusedPermit(permit), ok)
  }

  ghost function AwaitsReply(a: Face, call: CallId, key: Key, correlation: int): Face {
    a.(contents := a.contents[key := Public(call, Some(correlation))], frames := a.frames[call := key])
  }

  /** What the engine's answers make of a call that found a place in the ledger. */
  ghost predicate Offered(a: Face, b: Face, call: CallId, encoded: bool, ok: bool) {
    && One(a.record.permits, b.record.permits)
    && var asked, permit := a.(record := a.record.(permits := b.record.permits)), Last(b.record.permits);
      if !permit.Permit? then PermitTurnedDown(asked, b, call, permit, ok)
      else
        var correlation := CorrelationOf(permit.matchKey);
        if correlation.Ok? && encoded then Committed(asked, b, call, correlation.value, ok)
        else JustEnded(asked, b, call, if correlation.Ok? then Encode else IdentityConflict, ok)
  }

  /** What becomes of a call that is ready to go out: refused locally, for want of a place, or offered. */
  ghost predicate Admitted(a: Face, b: Face, request: Request, now: Moment, full: Option<RequestError>, ok: bool) {
    && One(a.record.preparations, b.record.preparations)
    && var asked, p := a.(record := a.record.(preparations := b.record.preparations)), Last(b.record.preparations);
      var refusal := LocalRefusal(p.selection, request, now, p.preparation);
      if refusal.Some? then JustEnded(asked, b, request.call, refusal.value, ok)
      else if full.Some? then JustEnded(asked, b, request.call, full.value, ok)
      else Offered(asked, b, request.call, p.encoded, ok)
  }

  /** The oldest queued call left the queue and was admitted. */
  ghost predicate NextAdmitted(a: Face, b: Face, now: Moment, full: Option<RequestError>, ok: bool) {
    && a.queue.items != []
    && Admitted(a.(queue := PopFront(a.queue).0), b, a.queue.items[0].value.request, now, full, ok)
  }

  /** The `n` oldest queued calls were admitted one after the other, each while nothing was captured. */
  ghost predicate AllAdmitted(a: Face, b: Face, n: nat, now: Moment)
    decreases n
  {
    if n == 0 then b == a
    else exists mid: Face, full: Option<RequestError> ::
      AllAdmitted(a, mid, n - 1, now) && mid.recovery.None? && NextAdmitted(mid, b, now, full, true)
  }

  /** After `n` calls were admitted the next one ended the lane. */
  ghost predicate NextAdmissionFailed(a: Face, b: Face, n: nat, now: Moment) {
    exists mid: Face, full: Option<RequestError> ::
      AllAdmitted(a, mid, n, now) && mid.recovery.None? && NextAdmitted(mid, b, now, full, false)
  }

  /**
   * Queued calls go out oldest first, if the lane is ready: as many as the budget allows, until the queue is empty, a
   * recovery is captured, or the lane ends.
   */
  ghost predicate PendingAdmitted(a: Face, b: Face, now: Moment, budget: nat, n: nat, ok: bool) {
    if !IsReady(a) then ok && n == 0 && b == a
    else
      && n <= budget
      && if ok then AllAdmitted(a, b, n, now) && (n == budget || b.queue.items == [] || b.recovery.Some?)
         else n < budget && NextAdmissionFailed(a, b, n, now)
  }

  // ------------------------------------------------------------------ what a step leaves unasked

  lemma OverAsks(a: Face, b: Face)
    requires Over(a, b)
    ensures b.terminal
    ensures Calm(a, b) && Still(a, b) && OnlyTouched(a.record, b.record)
    ensures b.record.touches == a.record.touches && b.record.surrenders == a.record.surrenders
  {
  }

  lemma OpenedAsks(a: Face, b: Face, ok: bool)
    requires OpenedOrEnded(a, b, ok)
    ensures Forward(a, b) && b.frames == a.frames && Still(a, b)
    ensures b.record == a.record.(openings := b.record.openings, policies := b.record.policies)
  {
    hide AfterGeneration, ClosedAs;
  }

  lemma GivenUpAsks(a: Face, b: Face, diverged: bool, ok: bool)
    requires GivenUp(a, b, diverged, ok)
    ensures Calm(a, b) && Still(a, b) && OnlyTouched(a.record, b.record) && b.record.touches == a.record.touches
  {
  }

  lemma AskedEngineAsks(a: Face, b: Face, ok: bool)
    requires AskedEngine(a, b, ok)
    ensures Calm(a, b) && Still(a, b) && OnlyTouched(a.record, b.record)
  {
    hide GivenUp, Over;
    var asked := a.(record := a.record.(touches := b.record.touches));
    if Last(b.record.touches).AccessStale? {
      OverAsks(asked, b);
    } else if Last(b.record.touches).AccessOwnerFailed? {
      GivenUpAsks(asked, b, false, ok);
    }
  }

  lemma TurnedDownAsks(a: Face, b: Face, stale: bool, poisoned: bool, ok: bool)
    requires TurnedDown(a, b, stale, poisoned, ok)
    ensures Calm(a, b) && Still(a, b) && OnlyTouched(a.record, b.record)
  {
    hide GivenUp, Over, SessionCloses;
    if stale {
      OverAsks(a, b);
    } else if poisoned {
      GivenUpAsks(a, b, false, ok);
    } else {
      SessionClosesAsks(a, b, NegotiationFailed, ok);
    }
  }

  /** A key taken just now was not accepted before, so publishing it does not bring a context back. */
  lemma JustTaken(a: Face, key: Key, context: Context, b: Face)
    requires key !in a.accepted && b.contents.Keys * (a.accepted + {key}) <= a.contents[key := context].Keys
    ensures b.contents.Keys * a.accepted <= a.contents.Keys
  {
    forall k | k in b.contents.Keys * a.accepted ensures k in a.contents.Keys {
      assert k in b.contents.Keys * (a.accepted + {key});
      assert k in a.contents[key := context].Keys;
    }
  }

  lemma ExchangeOfferedAsks(a: Face, b: Face, correlation: int, ok: bool)
    requires ExchangeOffered(a, b, correlation, ok)
    ensures Calm(a, b) && Still(a, b) && OnlyOffered(a.record, b.record) && b.record.permits == a.record.permits
    ensures b.record.preparations == a.record.preparations
  {
    hide TurnedDown, GivenUp;
    var asked, answer := OnceOffered(a, b), Last(b.record.commits).answer;
    if answer.AcceptedOwnerFailure? {
      GivenUpAsks(asked.(contents := a.contents[Key(a.connection.value, answer.operation) := Session]), b, false, ok);
      JustTaken(a, Key(a.connection.value, answer.operation), Session, b);
    } else if !answer.Accepted? {
      TurnedDownAsks(asked, b, answer.CommitStale?, false, ok);
    }
  }

  lemma SessionClosesAsks(a: Face, b: Face, reason: CloseReason, ok: bool)
    requires SessionCloses(a, b, reason, ok)
    ensures Calm(a, b) && Still(a, b) && OnlyTouched(a.record, b.record)
  {
    hide AskedEngine;
    AskedEngineAsks(a.(open := false, ready := false, close := Some(reason)), b, ok);
  }

  lemma ExchangedAsks(a: Face, b: Face, place: bool, ok: bool)
    requires Exchanged(a, b, place, ok)
    ensures Calm(a, b) && Still(a, b) && OnlyOffered(a.record, b.record)
  {
    hide ExchangeOffered, TurnedDown, SessionCloses;
    if !place {
      SessionClosesAsks(a, b, NegotiationFailed, ok);
    } else {
      var permit := Last(b.record.permits);
      var asked := a.(record := a.record.(permits := b.record.permits, preparations := b.record.preparations));
      if permit.Permit? && CorrelationOf(permit.matchKey).Ok? && Last(b.record.preparations).encoded {
        ExchangeOfferedAsks(asked, b, CorrelationOf(permit.matchKey).value, ok);
      } else {
        TurnedDownAsks(asked, b, permit.ReserveStale?, permit.ReservePoisoned?, ok);
      }
    }
  }

  lemma EffectAppliedAsks(a: Face, b: Face, effect: SessionEffect, place: bool, ok: bool)
    requires EffectApplied(a, b, effect, place, ok)
    ensures Calm(a, b) && Still(a, b) && OnlyOffered(a.record, b.record)
  {
    hide Exchanged, SessionCloses, AskedEngine;
    if a.connection.Some? {
      match effect
      case Exchange => ExchangedAsks(a, b, place, ok);
      case BecameReady =>
        if a.phase.Connecting? {
          AskedEngineAsks(a.(phase := Available, ready := true), b, ok);
        }
      case DrainSession => AskedEngineAsks(a.(open := false), b, ok);
      case EndSession(reason) => SessionClosesAsks(a, b, reason, ok);
      case DeadlineChange =>
    }
  }

  lemma {:induction false} EffectsAppliedAsk(a: Face, b: Face, effects: seq<SessionEffect>, ok: bool)
    requires EffectsApplied(a, b, effects, ok)
    ensures Calm(a, b) && Still(a, b) && OnlyOffered(a.record, b.record)
    decreases |effects|
  {
    hide EffectApplied;
    if effects != [] {
      var mid: Face, place: bool, first: bool :|
        && EffectApplied(a, mid, effects[0], place, first)
        && if first then EffectsApplied(mid, b, effects[1..], ok) else !ok && b == mid;
      EffectAppliedAsks(a, mid, effects[0], place, first);
      if first {
        EffectsAppliedAsk(mid, b, effects[1..], ok);
      }
    }
  }

  lemma SessionRanAsks(a: Face, b: Face, ok: bool)
    requires SessionRan(a, b, ok)
    ensures Calm(a, b) && Still(a, b) && OnlySession(a.record, b.record)
  {
    hide EffectsApplied;
    EffectsAppliedAsk(a.(record := a.record.(effects := b.record.effects)), b, Last(b.record.effects), ok);
  }

  lemma EndedWithLaneAsks(a: Face, b: Face, call: CallId, error: RequestError)
    requires EndedWithLane(a, b, call, error)
    ensures Forward(a, b) && b.terminal && b.record == a.record.(sessionEnds := b.record.sessionEnds)
  {
  }

  lemma AwaitingAsks(a: Face, call: CallId, key: Key, correlation: int)
    ensures AwaitsReply(a, call, key, correlation).record == a.record
  {
  }

  lemma TurnedDownAtCommit(a: Face, b: Face, call: CallId, answer: CommitAnswer, ok: bool)
    requires CommitTurnedDown(a, b, call, answer, ok)
    ensures Forward(a, b)
    ensures b.record == a.record.(surrenders := b.record.surrenders, sessionEnds := b.record.sessionEnds)
  {
    hide EndedWithLane, GivenUp;
    if answer.CommitStale? {
      EndedWithLaneAsks(a, b, call, RefusedCommit(answer));
    } else if answer.CommitOwnerFailed? {
      GivenUpAsks(a.(settled := a.settled + [Fail(call, RefusedCommit(answer), None)]), b, false, ok);
    }
  }

  lemma TurnedDownForPermit(a: Face, b: Face, call: CallId, permit: ReserveAnswer, ok: bool)
    requires !permit.Permit? && PermitTurnedDown(a, b, call, permit, ok)
    ensures Forward(a, b)
    ensures b.record == a.record.(surrenders := b.record.surrenders, sessionEnds := b.record.sessionEnds)
  {
    hide EndedWithLane, GivenUp;
    if permit.ReserveStale? {
      EndedWithLaneAsks(a, b, call, RefusedPermit(permit));
    } else if permit.ReservePoisoned? {
      GivenUpAsks(a.(settled := a.settled + [Fail(call, RefusedPermit(permit), None)]), b, false, ok);
    }
  }

  lemma CommittedAsks(a: Face, b: Face, call: CallId, correlation: int, ok: bool)
    requires Committed(a, b, call, correlation, ok)
    ensures Forward(a, b)
    ensures b.record == a.record.(
      commits := b.record.commits, surrenders := b.record.surrenders, sessionEnds := b.record.sessionEnds)
  {
    hide CommitTurnedDown, GivenUp;
    var asked, answer := OnceOffered(a, b), Last(b.record.commits).answer;
    if answer.AcceptedOwnerFailure? {
      GivenUpAsks(AwaitsReply(asked, call, Key(a.connection.value, answer.operation), correlation), b, false, ok);
      JustTaken(a, Key(a.connection.value, answer.operation), Public(call, Some(correlation)), b);
    } else if !answer.Accepted? {
      TurnedDownAtCommit(asked, b, call, answer, ok);
    }
  }

  lemma OfferedAsks(a: Face, b: Face, call: CallId, encoded: bool, ok: bool)
    requires Offered(a, b, call, encoded, ok)
    ensures Forward(a, b)
    ensures b.record == a.record.(
      permits := b.record.permits, commits := b.record.commits, surrenders := b.record.surrenders,
      sessionEnds := b.record.sessionEnds)
  {
    hide PermitTurnedDown, Committed;
    var asked, permit := a.(record := a.record.(permits := b.record.permits)), Last(b.record.permits);
    if !permit.Permit? {
      TurnedDownForPermit(asked, b, call, permit, ok);
    } else if CorrelationOf(permit.matchKey).Ok? && encoded {
      CommittedAsks(asked, b, call, CorrelationOf(permit.matchKey).value, ok);
    }
  }

  lemma AdmittedAsks(a: Face, b: Face, request: Request, now: Moment, full: Option<RequestError>, ok: bool)
    requires Admitted(a, b, request, now, full, ok)
    ensures Forward(a, b) && OnlyOffered(a.record, b.record) && One(a.record.preparations, b.record.preparations)
  {
    hide Offered, LocalRefusal;
    var asked, p := a.(record := a.record.(preparations := b.record.preparations)), Last(b.record.preparations);
    if LocalRefusal(p.selection, request, now, p.preparation).None? && full.None? {
      OfferedAsks(asked, b, request.call, p.encoded, ok);
    }
  }

  lemma ReconnectedAsks(a: Face, b: Face, ok: bool)
    requires Reconnected(a, b, ok)
    ensures Forward(a, b) && b.frames == a.frames && Still(a, b) && One(a.record.timers, b.record.timers)
    ensures b.record == a.record.(timers := b.record.timers, openings := b.record.openings, policies := b.record.policies)
  {
    hide OpenedOrEnded;
    var timer, asked := Last(b.record.timers), a.(record := a.record.(timers := b.record.timers));
    if timer.due && (a.phase.Backoff? || a.phase.Refreshing?) && !timer.rejected {
      OpenedAsks(asked.(phase := Connecting), b, ok);
    }
  }

  lemma LocalRefusalLocal(selection: Option<RequestError>, r: Request, now: Moment, preparation: Option<RequestError>)
    requires Local(selection) && Local(preparation)
    ensures Local(LocalRefusal(selection, r, now, preparation))
  {
  }

  lemma NoneAdmitted(a: Face, now: Moment)
    ensures AllAdmitted(a, a, 0, now)
  {
  }

  lemma OneMoreAdmitted(a: Face, mid: Face, b: Face, n: nat, now: Moment, full: Option<RequestError>, ok: bool)
    requires AllAdmitted(a, mid, n, now) && mid.recovery.None? && NextAdmitted(mid, b, now, full, ok)
    ensures if ok then AllAdmitted(a, b, n + 1, now) else NextAdmissionFailed(a, b, n, now)
  {
    hide NextAdmitted;
  }

  /** A step that did not fail left the lane and its queue as they were, and its generation live or captured. */
  ghost predicate GoesOn(a: Face, b: Face, ok: bool) {
    if ok then
      && b.terminal == a.terminal && b.queue == a.queue
      && ((b.connection == a.connection && b.recovery == a.recovery) || (b.connection.None? && b.recovery.Some?))
    else b.terminal
  }

  lemma GivenUpGoesOn(a: Face, b: Face, diverged: bool, ok: bool)
    requires GivenUp(a, b, diverged, ok)
    ensures GoesOn(a, b, ok)
  {
  }

  lemma CommittedGoesOn(a: Face, b: Face, call: CallId, correlation: int, ok: bool)
    requires Committed(a, b, call, correlation, ok)
    ensures GoesOn(a, b, ok)
  {
    hide GivenUp, RefusedCommit, EndedWithLane;
    var asked, answer := OnceOffered(a, b), Last(b.record.commits).answer;
    match answer
    case AcceptedOwnerFailure(operation) =>
      GivenUpGoesOn(AwaitsReply(asked, call, Key(a.connection.value, operation), correlation), b, false, ok);
    case CommitOwnerFailed =>
      GivenUpGoesOn(asked.(settled := a.settled + [Fail(call, RefusedCommit(answer), None)]), b, false, ok);
    case CommitStale => EndedWithLaneAsks(asked, b, call, RefusedCommit(answer));
    case _ =>
  }

  lemma OfferedGoesOn(a: Face, b: Face, call: CallId, encoded: bool, ok: bool)
    requires Offered(a, b, call, encoded, ok) && a.connection.Some?
    ensures GoesOn(a, b, ok)
  {
    hide GivenUp, Committed, RefusedPermit, EndedWithLane;
    var asked, permit := a.(record := a.record.(permits := b.record.permits)), Last(b.record.permits);
    match permit
    case Permit(matchKey) =>
      if CorrelationOf(matchKey).Ok? && encoded {
        CommittedGoesOn(asked, b, call, CorrelationOf(matchKey).value, ok);
      }
    case ReserveStale => EndedWithLaneAsks(asked, b, call, RefusedPermit(permit));
    case ReservePoisoned => GivenUpGoesOn(asked.(settled := a.settled + [Fail(call, RefusedPermit(permit), None)]), b, false, ok);
    case ReserveRefused(error) =>
  }

  /** An admission that does not fail leaves the lane as it is, connected or captured. */
  lemma AdmittedGoesOn(a: Face, b: Face, request: Request, now: Moment, full: Option<RequestError>, ok: bool)
    requires Admitted(a, b, request, now, full, ok) && a.connection.Some?
    ensures GoesOn(a, b, ok)
  {
    hide LocalRefusal, Offered;
    var asked, p := a.(record := a.record.(preparations := b.record.preparations)), Last(b.record.preparations);
    if LocalRefusal(p.selection, request, now, p.preparation).None? && full.None? {
      OfferedGoesOn(asked, b, request.call, p.encoded, ok);
    }
  }

  // ------------------------------------------------------------------ putting a step together

  lemma OneMore<T>(s: seq<T>, x: T)
    ensures One(s, s + [x]) && Last(s + [x]) == x
  {
  }

  lemma ResumedBy(a: Face, ended: Face, closed: Face, b: Face, reason: CloseReason, refused: bool, ok: bool)
    requires One(a.record.policies, ended.record.policies)
    requires var p, asked := Last(ended.record.policies), a.record.(policies := ended.record.policies);
      && (!refused <==> GenerationEnds(a.phase, reason, p))
      && ended == a.(phase := if refused then a.phase else AfterGeneration(a.phase, reason, p), record := asked)
      && (if refused || !p.interpreted then !ok && closed == ended
          else if !ended.phase.PhaseClosed? then ok && closed == ended
          else ClosedAs(ended, closed, ended.phase, reason) && ended.settled <= closed.settled
               && closed == ended.(terminal := true, settled := closed.settled, queue := closed.queue))
    requires if ok then b == closed else HostFailed(closed, b)
    requires a.contents == map[]
    ensures Resumed(a, b, reason, ok)
  {
    hide AfterGeneration, GenerationEnds;
  }

  lemma OverBy(a: Face, told: Face, b: Face, reason: CloseReason)
    requires One(a.record.sessionEnds, b.record.sessionEnds) && reason == Fallback(a.close, a.last)
    requires told == SessionTold(a, Last(b.record.sessionEnds)).(connection := None, open := false, last := Some(reason))
    requires b == told.(terminal := true, settled := b.settled, queue := b.queue, contents := map[])
    requires EveryoneTold(told, b, reason)
    ensures Over(a, b)
  {
    hide EveryoneTold;
    EveryoneToldSince(a, told, b, reason);
  }

  lemma ReconnectedBy(a: Face, asked: Face, b: Face, timer: Timer, ok: bool)
    requires asked.record == a.record.(timers := a.record.timers + [timer]) && asked == a.(record := asked.record)
    requires if !timer.due || !(a.phase.Backoff? || a.phase.Refreshing?) then ok && b == asked
      else if timer.rejected then !ok && HostFailed(asked, b)
      else OpenedOrEnded(asked.(phase := Connecting), b, ok)
    ensures Reconnected(a, b, ok)
  {
    hide OpenedOrEnded, EveryoneTold;
    OneMore(a.record.timers, timer);
    if timer.due && (a.phase.Backoff? || a.phase.Refreshing?) && !timer.rejected {
      OpenedAsks(asked.(phase := Connecting), b, ok);
    }
  }

  lemma OpenAttemptedBy(a: Face, b: Face, answer: OpenAnswer, opening: Opening)
    requires b.record == a.record.(openings := a.record.openings + [answer])
    requires match answer
      case Connected(epoch) =>
        && opening == Opened(epoch)
        && b == a.(connection := Some(epoch), ready := false, open := false, terminal := false, recovery := None,
                   close := None, record := b.record)
      case EndpointRefused(reason) => opening == EndpointFailed(reason) && b == a.(last := Some(reason), record := b.record)
      case ConnectFatal => opening == OpenFatal && b == a.(record := b.record)
    ensures OpenAttempted(a, b, opening)
  {
    OneMore(a.record.openings, answer);
  }

  lemma AttemptFailed(a: Face, b: Face, opening: Opening)
    requires OpenAttempted(a, b, opening) && !opening.Opened?
    ensures b.connection == a.connection && b.recovery == a.recovery && b.terminal == a.terminal
  {
  }

  lemma OpenedBy(a: Face, b: Face, opening: Opening)
    requires OpenAttempted(a, b, opening) && opening.Opened?
    ensures OpenedOrEnded(a, b, true)
  {
  }

  lemma OpenFailedBy(a: Face, mid: Face, b: Face, opening: Opening)
    requires OpenAttempted(a, mid, opening) && opening.OpenFatal? && HostFailed(mid, b)
    ensures OpenedOrEnded(a, b, false)
  {
  }

  lemma EndedBy(a: Face, mid: Face, ended: Face, closed: Face, b: Face, reason: CloseReason, refused: bool, ok: bool)
    requires OpenAttempted(a, mid, EndpointFailed(reason)) && a.phase.Connecting?
    requires One(mid.record.policies, ended.record.policies)
    requires var p := Last(ended.record.policies);
      && (!refused <==> GenerationEnds(mid.phase, reason, p))
      && ended == mid.(phase := if refused then mid.phase else AfterGeneration(mid.phase, reason, p),
                       record := mid.record.(policies := ended.record.policies))
    requires if refused then !ok && closed == ended
      else if !ended.phase.PhaseClosed? then ok && closed == ended
      else ClosedAs(ended, closed, ended.phase, reason) && ended.settled <= closed.settled
           && closed == ended.(terminal := true, settled := closed.settled, queue := closed.queue)
    requires if ok then b == closed else HostFailed(closed, b)
    requires a.contents == map[]
    ensures OpenedOrEnded(a, b, ok)
  {
    hide AfterGeneration;
  }

  lemma ExchangeCommittedBy(a: Face, asked: Face, b: Face, permit: ReserveAnswer, p: Preparation, ok: bool)
    requires asked.record == a.record.(permits := a.record.permits + [permit], preparations := a.record.preparations + [p])
    requires asked == a.(record := asked.record)
    requires if permit.Permit? && CorrelationOf(permit.matchKey).Ok? && p.encoded
      then ExchangeOffered(asked, b, CorrelationOf(permit.matchKey).value, ok)
      else TurnedDown(asked, b, permit.ReserveStale?, permit.ReservePoisoned?, ok)
    ensures ExchangeCommitted(a, b, ok)
  {
    hide ExchangeOffered, TurnedDown;
    OneMore(a.record.permits, permit);
    OneMore(a.record.preparations, p);
    if permit.Permit? && CorrelationOf(permit.matchKey).Ok? && p.encoded {
      ExchangeOfferedAsks(asked, b, CorrelationOf(permit.matchKey).value, ok);
    } else {
      TurnedDownAsks(asked, b, permit.ReserveStale?, permit.ReservePoisoned?, ok);
    }
  }

  /** The engine answered a frame. */
  ghost predicate FrameAnswered(a: Face, asked: Face, correlation: int, answer: CommitAnswer) {
    && a.connection.Some?
    && asked.record == a.record.(commits := a.record.commits + [FrameOffer(a.connection.value, correlation, answer)])
    && var taken := TakesFrame(answer);
      && (taken.Some? ==> Key(a.connection.value, taken.value) !in a.accepted)
      && asked == a.(record := asked.record,
                     accepted := if taken.Some? then a.accepted + {Key(a.connection.value, taken.value)} else a.accepted)
  }

  lemma ExchangeOfferedBy(a: Face, asked: Face, b: Face, correlation: int, answer: CommitAnswer, ok: bool)
    requires FrameAnswered(a, asked, correlation, answer)
    requires match answer
      case Accepted(operation) => ok && b == asked.(contents := a.contents[Key(a.connection.value, operation) := Session])
      case AcceptedOwnerFailure(operation) =>
        GivenUp(asked.(contents := a.contents[Key(a.connection.value, operation) := Session]), b, false, ok)
      case _ => TurnedDown(asked, b, answer.CommitStale?, false, ok)
    ensures ExchangeOffered(a, b, correlation, ok)
  {
    hide GivenUp, TurnedDown;
    OneMore(a.record.commits, FrameOffer(a.connection.value, correlation, answer));
    if answer.AcceptedOwnerFailure? {
      GivenUpAsks(asked.(contents := a.contents[Key(a.connection.value, answer.operation) := Session]), b, false, ok);
    } else if !answer.Accepted? {
      TurnedDownAsks(asked, b, answer.CommitStale?, false, ok);
    }
  }

  lemma CommittedBy(a: Face, asked: Face, b: Face, call: CallId, correlation: int, answer: CommitAnswer, ok: bool)
    requires FrameAnswered(a, asked, correlation, answer)
    requires match answer
      case Accepted(operation) => ok && b == AwaitsReply(asked, call, Key(a.connection.value, operation), correlation)
      case AcceptedOwnerFailure(operation) =>
        GivenUp(AwaitsReply(asked, call, Key(a.connection.value, operation), correlation), b, false, ok)
      case _ => CommitTurnedDown(asked, b, call, answer, ok)
    ensures Committed(a, b, call, correlation, ok)
  {
    hide GivenUp, CommitTurnedDown;
    OneMore(a.record.commits, FrameOffer(a.connection.value, correlation, answer));
    if answer.AcceptedOwnerFailure? {
      GivenUpAsks(AwaitsReply(asked, call, Key(a.connection.value, answer.operation), correlation), b, false, ok);
    } else if !answer.Accepted? {
      TurnedDownAtCommit(asked, b, call, answer, ok);
    }
  }

  lemma OfferedBy(a: Face, asked: Face, b: Face, call: CallId, permit: ReserveAnswer, encoded: bool, ok: bool)
    requires asked.record == a.record.(permits := a.record.permits + [permit]) && asked == a.(record := asked.record)
    requires if !permit.Permit? then PermitTurnedDown(asked, b, call, permit, ok)
      else
        var correlation := CorrelationOf(permit.matchKey);
        if correlation.Ok? && encoded then Committed(asked, b, call, correlation.value, ok)
        else JustEnded(asked, b, call, if correlation.Ok? then Encode else IdentityConflict, ok)
    ensures Offered(a, b, call, encoded, ok)
  {
    hide PermitTurnedDown, Committed;
    OneMore(a.record.permits, permit);
    if !permit.Permit? {
      TurnedDownForPermit(asked, b, call, permit, ok);
    } else if CorrelationOf(permit.matchKey).Ok? && encoded {
      CommittedAsks(asked, b, call, CorrelationOf(permit.matchKey).value, ok);
    }
  }
}
