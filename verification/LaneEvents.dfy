/**
 * What becomes of everything the engine reports to one lane: outcomes, events, captured recoveries and the failures of
 * a drive, again as relations between what the lane shows before and after.
 */
module LaneEvents {
  import opened Common
  import opened Requests
  import opened WaitQueueSpec
  import opened RouteWaitingCalls
  import opened PendingCalls
  import opened Contexts
  import opened LaneBooks
  import opened Engines
  import opened Endings
  import opened LaneSteps

  function Expired(calls: seq<CallId>): (ended: seq<Settlement>)
    ensures Calls(ended) == calls
    ensures forall i :: 0 <= i < |ended| ==> ended[i] == Fail(calls[i], EXPIRED, None)
  {
    seq(|calls|, i requires 0 <= i < |calls| => Fail(calls[i], EXPIRED, None))
  }

  // ------------------------------------------------------------------ recovery

  /**
   * What the callers of a lost generation are told: what the reported outcomes say, then the delivery recorded for each
   * recovered and each discarded operation, and that anything else was possibly sent.
   */
  ghost predicate OwnersTold(contents: map<Key, Context>, report: Report, reason: CloseReason, before: seq<Settlement>,
                             reported: seq<Settlement>, named: seq<Settlement>, after: seq<Settlement>)
  {
    && before <= reported <= named <= after
    && OutcomesEnd(contents, report.outcomes, Some(reason), before, reported)
    && FailedSince(named, after, Recovery(reason, PossiblySent))
    && var left := contents - KeySet(OutcomeNames(report.outcomes));
      Told(named) == Told(reported) + EntriesTold(left, report.epoch, report.operations, reason)
        + EntriesTold(left - KeySet(NamedBy(report.epoch, report.operations)), report.epoch, report.unmatchedWrites, reason)
  }

  /** The lane after the callers of a lost generation were told and its session ended. */
  ghost function Lost(a: Face, recovery: PendingRecovery, ends: seq<SessionEnd>, owners: seq<Settlement>): Face {
    a.(phase := AdmittedPhase(a.phase, recovery), ready := false, open := false, close := None,
       last := Some(FirstKnown(a.close, recovery.report.reason)), settled := owners, contents := map[],
       record := a.record.(sessionEnds := ends))
  }

  /** A usable owner is left to the broker policy; otherwise the queued calls end as not sent, and the lane with them. */
  ghost predicate RecoveryDecided(a: Face, b: Face, reason: CloseReason, usable: bool, ok: bool) {
    if usable then Resumed(a, b, reason, ok)
    else
      && !ok && a.settled <= b.settled && QueueEnded(a, b, Recovery(reason, NotSent))
      && b == a.(terminal := true, settled := b.settled, queue := b.queue)
  }

  /**
   * A captured recovery was settled: the callers were told, the session ended, and the broker policy decides if, and
   * only if, nothing diverged, the owner can be used again and every completion was stamped.
   */
  ghost predicate RecoveredVia(a: Face, b: Face, recovery: PendingRecovery, reported: seq<Settlement>,
                               named: seq<Settlement>, owners: seq<Settlement>, ok: bool)
  {
    && One(a.record.sessionEnds, b.record.sessionEnds)
    && var reason := FirstKnown(a.close, recovery.report.reason);
      && OwnersTold(a.contents, recovery.report, reason, a.settled, reported, named, owners)
      && var lost := Lost(a, recovery, b.record.sessionEnds, owners);
        RecoveryDecided(lost, b, reason,
          Clean(recovery, a.contents.Keys) && Last(b.record.sessionEnds).accepted && StampedFrom(|a.settled|, owners), ok)
  }

  ghost predicate RecoverySettled(a: Face, b: Face, recovery: PendingRecovery, ok: bool) {
    exists reported, named, owners :: RecoveredVia(a, b, recovery, reported, named, owners, ok)
  }

  /** The captured recovery, if any, was settled. */
  ghost predicate CaptureSettled(a: Face, b: Face, ok: bool) {
    if a.recovery.None? then ok && b == a else RecoverySettled(a.(recovery := None), b, a.recovery.value, ok)
  }

  function Prepended(recovery: PendingRecovery, outcomes: seq<EngineOutcome>): PendingRecovery {
    recovery.(report := recovery.report.(outcomes := outcomes + recovery.report.outcomes))
  }

  /** A captured recovery was settled as diverged, with these outcomes in front of its own. */
  ghost predicate SettledDiverged(a: Face, b: Face, outcomes: seq<EngineOutcome>) {
    && a.recovery.Some?
    && RecoverySettled(a.(recovery := None), b, Prepended(a.recovery.value, outcomes).(diverged := true), false)
  }

  /**
   * A drive step failed with outcomes not yet settled: the generation of the drive is given up and settled as diverged,
   * and a lane that has nothing left to recover is over.
   */
  ghost predicate DriveFailed(a: Face, b: Face, epoch: nat, outcomes: seq<EngineOutcome>) {
    if a.recovery.Some? then SettledDiverged(a, b, outcomes)
    else if a.connection != Some(epoch) then HostFailed(a, b)
    else exists mid: Face, captured: bool ::
      GivenUp(a, mid, true, captured) && if captured then SettledDiverged(mid, b, outcomes) else b == mid
  }

  // ------------------------------------------------------------------ outcomes

  /** A reply that could not be used; the session is told. */
  predicate Unusable(o: EngineOutcome) { o.outcome.Replied? && !o.outcome.body.Decodes? }

  ghost predicate OutcomeSettledVia(a: Face, b: Face, o: EngineOutcome, settled: seq<Settlement>, ok: bool)
    requires o.key in a.contents
  {
    && OutcomeEnds(a.contents, o, a.close, a.settled, settled)
    && var mid := a.(contents := a.contents - {o.key}, settled := settled);
      if !StampedFrom(|a.settled|, settled) then !ok && b == mid
      else if a.contents[o.key].Session? || Unusable(o) then SessionRan(mid, b, ok)
      else ok && b == mid
  }

  /**
   * The context of an outcome is released, its call told, and the session run when the outcome is its own or unusable.
   * An outcome nobody waits for abandons the generation as diverged.
   */
  ghost predicate OutcomeSettled(a: Face, b: Face, o: EngineOutcome, ok: bool) {
    if o.key in a.contents then exists settled :: OutcomeSettledVia(a, b, o, settled, ok)
    else if a.connection.None? then !ok && b == a
    else GivenUp(a, b, true, ok)
  }

  /** Outcomes were settled in order, none failed, and no recovery was captured before the last. */
  ghost predicate OutcomesRan(a: Face, b: Face, outcomes: seq<EngineOutcome>)
    decreases |outcomes|
  {
    if outcomes == [] then b == a
    else
      var n := |outcomes| - 1;
      exists mid :: OutcomesRan(a, mid, outcomes[..n]) && mid.recovery.None? && OutcomeSettled(mid, b, outcomes[n], true)
  }

  /** The first `n` outcomes were settled; then there were no more, a recovery took the rest, or the last one failed. */
  ghost predicate OutcomesSettledVia(a: Face, b: Face, epoch: nat, outcomes: seq<EngineOutcome>, n: nat, mid: Face, ok: bool)
    requires n <= |outcomes|
  {
    if ok then
      && OutcomesRan(a, mid, outcomes[..n])
      && (if mid.recovery.Some? then b == mid.(recovery := Some(Prepended(mid.recovery.value, outcomes[n..])))
          else n == |outcomes| && b == mid)
    else
      && n > 0 && DriveFailed(mid, b, epoch, outcomes[n..])
      && exists last: Face ::
        OutcomesRan(a, last, outcomes[..n - 1]) && last.recovery.None? && OutcomeSettled(last, mid, outcomes[n - 1], false)
  }

  ghost predicate OutcomesSettled(a: Face, b: Face, epoch: nat, outcomes: seq<EngineOutcome>, n: nat, ok: bool) {
    n <= |outcomes| && exists mid :: OutcomesSettledVia(a, b, epoch, outcomes, n, mid, ok)
  }

  // ------------------------------------------------------------------ events

  /** The connection retires, or the lane is over; `diverged` when contexts were left to end. */
  ghost predicate Retired(a: Face, b: Face, answer: Access, effective: CloseReason, diverged: bool, ok: bool) {
    match answer
    case AccessStale => !ok && Over(a.(close := Some(effective)), b)
    case Fine =>
      if diverged
      then
        && !ok && a.settled <= b.settled && QueueEnded(a, b, Recovery(effective, NotSent))
        && b == a.(connection := None, settled := b.settled, queue := b.queue,
                   terminal := a.terminal || StampedFrom(|a.settled|, b.settled))
      else Resumed(a.(connection := None), b, effective, ok)
    case _ => !ok && b == a
  }

  ghost predicate ContextsLostVia(a: Face, b: Face, effective: CloseReason, owners: seq<Settlement>, ok: bool) {
    && FailedSince(a.settled, owners, Recovery(effective, PossiblySent))
    && var lost := a.(settled := owners, contents := map[]);
      if !StampedFrom(|a.settled|, owners) then !ok && b == lost
      else
        && One(a.record.touches, b.record.touches)
        && Retired(lost.(record := a.record.(touches := b.record.touches)), b, Last(b.record.touches), effective,
                   a.contents != map[], ok)
  }

  ghost predicate ContextsLost(a: Face, b: Face, effective: CloseReason, ok: bool) {
    exists owners :: ContextsLostVia(a, b, effective, owners, ok)
  }

  /** The session hears of the end, and its reason counts; then everything still published ends. */
  ghost predicate SessionLost(a: Face, b: Face, otherwise: CloseReason, ok: bool) {
    && |a.record.sessionEnds| < |b.record.sessionEnds|
    && var e := b.record.sessionEnds[|a.record.sessionEnds|];
      var told := SessionTold(a, e);
      if !e.accepted then !ok && b == told
      else
        var effective := FirstKnown(told.close, otherwise);
        ContextsLost(told.(close := None, last := Some(effective)), b, effective, ok)
  }

  /** The session was told that the engine drained it. */
  ghost predicate DrainNoted(a: Face, b: Face, ok: bool) {
    && One(a.record.sessionDrains, b.record.sessionDrains)
    && var d := Last(b.record.sessionDrains);
      && ok == d.expected
      && b == a.(close := if d.draining then Some(Drained) else a.close,
                 record := a.record.(sessionDrains := b.record.sessionDrains))
  }

  /** `Closed`: a drained connection is noted first, and an unexpected drain stops there. */
  ghost predicate ConnectionClosedBy(a: Face, b: Face, reason: EngineClose, diagnostic: Option<TransportFailure>, ok: bool) {
    var shut, otherwise := a.(open := false), ConnectionCloseReason(reason, diagnostic);
    if !reason.CloseDrained? then SessionLost(shut, b, otherwise, ok)
    else exists noted: Face, expected: bool ::
      DrainNoted(shut, noted, expected) && if expected then SessionLost(noted, b, otherwise, ok) else !ok && b == noted
  }

  /** One event of the engine; without a connection every event is an error. */
  ghost predicate EventSettled(a: Face, b: Face, event: EngineEvent, ok: bool) {
    if a.connection.None? then !ok && b == a
    else
      match event
      case TransportOpened => SessionRan(a, b, ok)
      case AdmissionOpened =>
        var phase := if a.phase.Connecting? then Available else a.phase;
        ok && b == a.(phase := phase, open := phase.Available?)
      case Closing(reason) =>
        if reason.CloseDrained? then DrainNoted(a.(open := false), b, ok) else ok && b == a.(open := false)
      case ClosedEvent(reason, diagnostic) => ConnectionClosedBy(a, b, reason, diagnostic, ok)
      case OtherEpoch => ok && b == a
  }

  ghost predicate EventsRan(a: Face, b: Face, events: seq<EngineEvent>)
    decreases |events|
  {
    if events == [] then b == a
    else
      var n := |events| - 1;
      exists mid :: EventsRan(a, mid, events[..n]) && mid.recovery.None? && EventSettled(mid, b, events[n], true)
  }

  /** The first `n` events were settled; then there were no more, a recovery was captured, or the last one failed. */
  ghost predicate EventsSettledVia(a: Face, b: Face, epoch: nat, events: seq<EngineEvent>, n: nat, mid: Face, ok: bool)
    requires n <= |events|
  {
    if ok then EventsRan(a, b, events[..n]) && (b.recovery.Some? || n == |events|) && b == mid
    else
      && n > 0 && DriveFailed(mid, b, epoch, [])
      && exists last: Face ::
        EventsRan(a, last, events[..n - 1]) && last.recovery.None? && EventSettled(last, mid, events[n - 1], false)
  }

  ghost predicate EventsSettled(a: Face, b: Face, epoch: nat, events: seq<EngineEvent>, ok: bool) {
    exists n: nat, mid: Face :: n <= |events| && EventsSettledVia(a, b, epoch, events, n, mid, ok)
  }

  // ------------------------------------------------------------------ a turn

  ghost predicate DrainFailedAs(a: Face, b: Face, stale: bool, ok: bool) {
    if stale then !ok && Over(a, b) else GivenUp(a, b, false, ok)
  }

  /** Both batches were drained: the outcomes are settled, and the events after them unless a recovery took over. */
  ghost predicate BatchesSettled(a: Face, b: Face, outcomes: seq<EngineOutcome>, events: seq<EngineEvent>, n: nat, ok: bool) {
    && a.connection.Some?
    && exists mid: Face, first: bool ::
      && OutcomesSettled(a, mid, a.connection.value, outcomes, n, first)
      && if first && mid.recovery.None? then EventsSettled(mid, b, a.connection.value, events, ok) else ok == first && b == mid
  }

  /** Events could not be drained: the outcomes already drained go in front of the recovery captured. */
  ghost predicate EventsUndrained(a: Face, b: Face, outcomes: seq<EngineOutcome>, stale: bool, ok: bool) {
    exists mid: Face ::
      && DrainFailedAs(a, mid, stale, ok)
      && if ok then mid.recovery.Some? && b == mid.(recovery := Some(Prepended(mid.recovery.value, outcomes))) else b == mid
  }

  /** The engine was drained once, and the first `taken` of the outcomes it gave were settled here. */
  ghost predicate EngineDrained(a: Face, b: Face, taken: nat, ok: bool) {
    && One(a.record.outcomeDrains, b.record.outcomeDrains)
    && var outcomes, asked := Last(b.record.outcomeDrains), a.(record := a.record.(outcomeDrains := b.record.outcomeDrains));
      if !outcomes.Batch? then DrainFailedAs(asked, b, outcomes.DrainStale?, ok)
      else
        && One(a.record.eventDrains, b.record.eventDrains)
        && var events := Last(b.record.eventDrains);
          var drained := asked.(record := asked.record.(eventDrains := b.record.eventDrains));
          if events.Batch? then BatchesSettled(drained, b, outcomes.items, events.items, taken, ok)
          else EventsUndrained(drained, b, outcomes.items, events.DrainStale?, ok)
  }

  /** A failed turn gives the connection up and settles what was captured. */
  ghost predicate TurnFailed(a: Face, b: Face, ok: bool) {
    exists mid: Face, captured: bool ::
      GivenUp(a, mid, false, captured) && if captured then CaptureSettled(mid, b, ok) else !ok && b == mid
  }

  /** The turn of the shared selector: drained, or failed for every lane, those without a connection included. */
  ghost predicate Turned(a: Face, b: Face, taken: nat, ok: bool) {
    && One(a.record.turns, b.record.turns)
    && var turn, asked := Last(b.record.turns), a.(record := a.record.(turns := b.record.turns));
      if a.connection.Some?
      then if turn.failed then TurnFailed(asked, b, ok) else EngineDrained(asked, b, taken, ok)
      else if turn.connected && turn.failed then !ok && Over(asked, b)
      else ok && b == asked
  }

  // ------------------------------------------------------------------ a drive

  /** The session timer was read, and the session run if it was due. */
  ghost predicate SessionTimed(a: Face, b: Face, ok: bool) {
    && One(a.record.sessionTimers, b.record.sessionTimers)
    && var asked := a.(record := a.record.(sessionTimers := b.record.sessionTimers));
      if !a.terminal && Last(b.record.sessionTimers) then SessionRan(asked, b, ok) else ok && b == asked
  }

  /** The calls that ran out of time, earliest deadline first and no more than the budget, were told so. */
  ghost function AfterExpiry(a: Face, now: Moment, budget: nat): Face {
    var (rest, taken) := Expire(a.queue, now, budget);
    a.(queue := rest, settled := a.settled + Expired(CallsOf(taken)))
  }

  ghost predicate PreparedVia(a: Face, b: Face, now: Moment, budget: nat, reopened: Face, timed: Face, ok: bool) {
    && Reconnected(a, reopened, true) && SessionTimed(reopened, timed, true)
    && CaptureSettled(AfterExpiry(timed, now, budget), b, ok)
  }

  /**
   * Reconnection comes first, then the session timer, expiry and a captured recovery; the first failure stops it. What
   * expiry leaves of the budget is left for admission.
   */
  ghost predicate Prepared(a: Face, b: Face, now: Moment, budget: nat, left: nat, ok: bool) {
    || (!ok && left == 0 && Reconnected(a, b, false))
    || (!ok && left == 0 && exists reopened :: Reconnected(a, reopened, true) && SessionTimed(reopened, b, false))
    || exists reopened, timed ::
         PreparedVia(a, b, now, budget, reopened, timed, ok) && left == budget - |Expire(timed.queue, now, budget).1|
  }

  ghost predicate FinishedVia(a: Face, b: Face, now: Moment, left: nat, n: nat, settled: Face, sent: Face, ok: bool) {
    && CaptureSettled(a, settled, true)
    && if IsTerminal(settled) then ok && n == 0 && sent == settled == b
       else PendingAdmitted(settled, sent, now, left, n, true) && CaptureSettled(sent, b, ok)
  }

  /** What was captured is settled, queued calls are admitted, and what that captured is settled too. */
  ghost predicate Finished(a: Face, b: Face, now: Moment, left: nat, n: nat, ok: bool) {
    || (!ok && n == 0 && CaptureSettled(a, b, false))
    || (!ok && exists settled ::
          CaptureSettled(a, settled, true) && !IsTerminal(settled) && PendingAdmitted(settled, b, now, left, n, false))
    || exists settled, sent :: FinishedVia(a, b, now, left, n, settled, sent, ok)
  }

  ghost predicate DrivenVia(a: Face, b: Face, now: Moment, budget: nat, n: nat, ready: Face, left: nat, prepared: bool,
                            turned: Face, taken: nat, ran: bool, ok: bool)
  {
    && Prepared(a, ready, now, budget, left, prepared) && Turned(ready, turned, taken, ran)
    && if prepared then exists finished: bool :: Finished(turned, b, now, left, n, finished) && ok == (ran && finished)
       else !ok && n == 0 && b == turned
  }

  /** One whole turn: preparation, the turn of the engine, and, if preparation succeeded, admission. */
  ghost predicate Driven(a: Face, b: Face, now: Moment, budget: nat, n: nat, ok: bool) {
    exists ready, left, prepared, turned, taken, ran ::
      DrivenVia(a, b, now, budget, n, ready, left, prepared, turned, taken, ran, ok)
  }

  // ------------------------------------------------------------------ draining

  ghost predicate SessionDrainedVia(a: Face, b: Face, mid: Face, ok: bool) {
    && (if a.connection.Some? then SessionRan(a, mid, ok) else !ok && mid == a)
    && if ok then b == mid else HostFailed(mid, b)
  }

  /** A live generation drains through its session, and a failure there ends the lane; any other closes at once. */
  ghost predicate PolicyDrained(a: Face, b: Face, ok: bool) {
    if a.phase.DrainingPhase? then ok && b == a
    else if LivePhase(a.phase) then exists mid :: SessionDrainedVia(a.(phase := DrainingPhase), b, mid, ok)
    else ok && b == a.(terminal := true, phase := if a.phase.PhaseClosed? then a.phase else PhaseClosed(ByRequest))
  }

  ghost predicate DrainBegunVia(a: Face, b: Face, mid: Face, ended: Face, settled: bool, ok: bool) {
    && CaptureSettled(a.(open := false), mid, settled)
    && if settled
       then
         && ended == mid.(settled := ended.settled, queue := ended.queue) && mid.settled <= ended.settled
         && QueueEnded(mid, ended, NotSentAs(CallFailure.Draining)) && PolicyDrained(ended, b, ok)
       else !ok && b == mid
  }

  /** What was captured is settled first, then the queued calls end, then the broker policy drains. */
  ghost predicate DrainBegun(a: Face, b: Face, ok: bool) {
    exists mid, ended, settled :: DrainBegunVia(a, b, mid, ended, settled, ok)
  }

  /** A failed endpoint refresh keeps waiting for its retry, or closes the policy and tells every queued call. */
  ghost predicate RefreshSettled(a: Face, b: Face, ok: bool) {
    && One(a.record.policies, b.record.policies)
    && var asked := a.(record := a.record.(policies := b.record.policies));
      if IsTerminal(a) || !a.phase.Refreshing? || !Last(b.record.policies).gaveUp then ok && b == asked
      else
        && b == asked.(phase := PhaseClosed(GaveUp), terminal := true, open := b.open, settled := b.settled, queue := b.queue)
        && a.settled <= b.settled && b.queue.items == [] && (ok ==> QueueEnded(a, b, NotSentAs(CallFailure.Closed)))
  }

  // ------------------------------------------------------------------ what a step leaves unasked

  /** Beyond what concerns connections, sessions and the broker policy nothing was asked, and nothing was taken back. */
  ghost predicate Within(a: Face, b: Face) { Calm(a, b) && OnlyEvents(a.record, b.record) }

  lemma WithinBoth(a: Face, b: Face, c: Face)
    requires Within(a, b) && Within(b, c)
    ensures Within(a, c) && (Still(a, b) && Still(b, c) ==> Still(a, c))
  {
  }

  lemma RecoveryWithin(a: Face, b: Face, recovery: PendingRecovery, ok: bool)
    requires RecoverySettled(a, b, recovery, ok)
    ensures Within(a, b) && Still(a, b) && b.recovery == a.recovery && (!ok ==> b.terminal)
    ensures b.record == a.record.(sessionEnds := b.record.sessionEnds, policies := b.record.policies)
  {
    hide OutcomesEnd, FailedSince, StampedFrom, Told, EntriesTold, GenerationEnds, AfterGeneration, Clean, AdmittedPhase;
    var reported, named, owners :| RecoveredVia(a, b, recovery, reported, named, owners, ok);
    assert a.settled <= owners;
  }

  lemma CaptureWithin(a: Face, b: Face, ok: bool)
    requires CaptureSettled(a, b, ok)
    ensures Within(a, b) && Still(a, b) && b.recovery.None? && (!ok ==> b.terminal)
    ensures b.record == a.record.(sessionEnds := b.record.sessionEnds, policies := b.record.policies)
  {
    hide RecoverySettled;
    if a.recovery.Some? {
      RecoveryWithin(a.(recovery := None), b, a.recovery.value, ok);
    }
  }

  lemma DriveFailedWithin(a: Face, b: Face, epoch: nat, outcomes: seq<EngineOutcome>)
    requires DriveFailed(a, b, epoch, outcomes)
    ensures Within(a, b) && b.terminal
  {
    hide RecoverySettled, GivenUp;
    if a.recovery.Some? {
      RecoveryWithin(a.(recovery := None), b, Prepended(a.recovery.value, outcomes).(diverged := true), false);
    } else if a.connection == Some(epoch) {
      var mid: Face, captured: bool :|
        GivenUp(a, mid, true, captured) && if captured then SettledDiverged(mid, b, outcomes) else b == mid;
      GivenUpAsks(a, mid, true, captured);
      if captured {
        RecoveryWithin(mid.(recovery := None), b, Prepended(mid.recovery.value, outcomes).(diverged := true), false);
      } else {
        GivenUpOver(a, mid, true);
      }
    }
  }

  lemma GivenUpOver(a: Face, b: Face, diverged: bool)
    requires GivenUp(a, b, diverged, false)
    ensures b.terminal
  {
  }

  lemma OutcomeWithin(a: Face, b: Face, o: EngineOutcome, ok: bool)
    requires OutcomeSettled(a, b, o, ok)
    ensures Within(a, b) && Still(a, b)
  {
    hide SessionRan, GivenUp, Tells, StampedFrom;
    if o.key in a.contents {
      var settled :| OutcomeSettledVia(a, b, o, settled, ok);
      var mid := a.(contents := a.contents - {o.key}, settled := settled);
      assert a.settled <= settled;
      if StampedFrom(|a.settled|, settled) && (a.contents[o.key].Session? || Unusable(o)) {
        SessionRanAsks(mid, b, ok);
      }
    } else if a.connection.Some? {
      GivenUpAsks(a, b, true, ok);
    }
  }

  lemma {:induction false} OutcomesRanWithin(a: Face, b: Face, outcomes: seq<EngineOutcome>)
    requires OutcomesRan(a, b, outcomes)
    ensures Within(a, b) && Still(a, b)
    decreases |outcomes|
  {
    hide OutcomeSettled, Within;
    if outcomes == [] {
      SameWithin(a);
    } else {
      var n := |outcomes| - 1;
      var mid :| OutcomesRan(a, mid, outcomes[..n]) && mid.recovery.None? && OutcomeSettled(mid, b, outcomes[n], true);
      OutcomesRanWithin(a, mid, outcomes[..n]);
      OutcomeWithin(mid, b, outcomes[n], true);
      WithinBoth(a, mid, b);
    }
  }

  lemma SameWithin(a: Face)
    ensures Within(a, a)
  {
  }

  lemma OutcomesWithin(a: Face, b: Face, epoch: nat, outcomes: seq<EngineOutcome>, n: nat, ok: bool)
    requires OutcomesSettled(a, b, epoch, outcomes, n, ok)
    ensures Within(a, b) && Still(a, b) && (!ok ==> b.terminal)
  {
    hide OutcomesRan, OutcomeSettled, DriveFailed;
    var mid :| OutcomesSettledVia(a, b, epoch, outcomes, n, mid, ok);
    if ok {
      OutcomesRanWithin(a, mid, outcomes[..n]);
    } else {
      var last: Face :|
        OutcomesRan(a, last, outcomes[..n - 1]) && last.recovery.None? && OutcomeSettled(last, mid, outcomes[n - 1], false);
      OutcomesRanWithin(a, last, outcomes[..n - 1]);
      OutcomeWithin(last, mid, outcomes[n - 1], false);
      DriveFailedWithin(mid, b, epoch, outcomes[n..]);
    }
  }

  lemma ResumedWithin(a: Face, b: Face, reason: CloseReason, ok: bool)
    requires Resumed(a, b, reason, ok)
    ensures Within(a, b) && Still(a, b)
  {
    hide GenerationEnds, AfterGeneration;
  }

  lemma RetiredAsks(a: Face, b: Face, answer: Access, effective: CloseReason, diverged: bool, ok: bool)
    requires Retired(a, b, answer, effective, diverged, ok)
    ensures b.record.touches == a.record.touches && a.record.sessionEnds <= b.record.sessionEnds
  {
  }

  lemma RetiredWithin(a: Face, b: Face, answer: Access, effective: CloseReason, diverged: bool, ok: bool)
    requires Retired(a, b, answer, effective, diverged, ok)
    ensures Within(a, b) && (ok ==> Still(a, b))
  {
    hide Resumed, Over;
    if answer.AccessStale? {
      OverAsks(a.(close := Some(effective)), b);
    } else if answer.Fine? && !diverged {
      ResumedWithin(a.(connection := None), b, effective, ok);
    }
  }

  lemma UnstampedLost(a: Face, b: Face, effective: CloseReason, owners: seq<Settlement>)
    requires FailedSince(a.settled, owners, Recovery(effective, PossiblySent)) && !StampedFrom(|a.settled|, owners)
    requires b == a.(settled := owners, contents := map[])
    ensures ContextsLost(a, b, effective, false)
  {
    hide FailedSince, StampedFrom;
    assert ContextsLostVia(a, b, effective, owners, false);
  }

  lemma ContextsLostBy(a: Face, asked: Face, b: Face, effective: CloseReason, owners: seq<Settlement>, answer: Access, ok: bool)
    requires FailedSince(a.settled, owners, Recovery(effective, PossiblySent)) && StampedFrom(|a.settled|, owners)
    requires asked.record == a.record.(touches := a.record.touches + [answer])
    requires asked == a.(settled := owners, contents := map[], record := asked.record)
    requires Retired(asked, b, answer, effective, a.contents != map[], ok)
    ensures ContextsLost(a, b, effective, ok)
  {
    hide FailedSince, StampedFrom, Retired;
    OneMore(a.record.touches, answer);
    RetiredAsks(asked, b, answer, effective, a.contents != map[], ok);
    assert ContextsLostVia(a, b, effective, owners, ok);
  }

  lemma ContextsWithin(a: Face, b: Face, effective: CloseReason, ok: bool)
    requires ContextsLost(a, b, effective, ok)
    ensures Within(a, b) && (ok ==> Still(a, b))
  {
    hide StampedFrom, Retired;
    var owners :| ContextsLostVia(a, b, effective, owners, ok);
    var lost := a.(settled := owners, contents := map[]);
    if StampedFrom(|a.settled|, owners) {
      RetiredWithin(lost.(record := a.record.(touches := b.record.touches)), b, Last(b.record.touches), effective,
                    a.contents != map[], ok);
    }
  }

  lemma ToldWithin(a: Face, e: SessionEnd, effective: CloseReason)
    ensures Within(a, SessionTold(a, e)) && Within(a, SessionTold(a, e).(close := None, last := Some(effective)))
  {
  }

  lemma SessionLostWithin(a: Face, b: Face, otherwise: CloseReason, ok: bool)
    requires SessionLost(a, b, otherwise, ok)
    ensures Within(a, b) && (ok ==> Still(a, b))
  {
    hide ContextsLost, Within;
    var e := b.record.sessionEnds[|a.record.sessionEnds|];
    var told := SessionTold(a, e);
    var effective := FirstKnown(told.close, otherwise);
    ToldWithin(a, e, effective);
    if e.accepted {
      var lost := told.(close := None, last := Some(effective));
      ContextsWithin(lost, b, effective, ok);
      WithinBoth(a, lost, b);
    }
  }

  lemma ShutWithin(a: Face)
    ensures Within(a, a.(open := false)) && Still(a, a.(open := false))
  {
  }

  lemma NotedWithin(a: Face, b: Face, ok: bool)
    requires DrainNoted(a, b, ok)
    ensures Within(a, b) && Still(a, b)
  {
  }

  lemma ClosedWithin(a: Face, b: Face, reason: EngineClose, diagnostic: Option<TransportFailure>, ok: bool)
    requires ConnectionClosedBy(a, b, reason, diagnostic, ok)
    ensures Within(a, b) && (ok ==> Still(a, b))
  {
    hide SessionLost, DrainNoted, Within;
    var shut, otherwise := a.(open := false), ConnectionCloseReason(reason, diagnostic);
    ShutWithin(a);
    if !reason.CloseDrained? {
      SessionLostWithin(shut, b, otherwise, ok);
    } else {
      var noted: Face, expected: bool :|
        DrainNoted(shut, noted, expected) && if expected then SessionLost(noted, b, otherwise, ok) else !ok && b == noted;
      NotedWithin(shut, noted, expected);
      WithinBoth(a, shut, noted);
      if expected {
        SessionLostWithin(noted, b, otherwise, ok);
        WithinBoth(a, noted, b);
      }
      return;
    }
    WithinBoth(a, shut, b);
  }

  lemma EventWithin(a: Face, b: Face, event: EngineEvent, ok: bool)
    requires EventSettled(a, b, event, ok)
    ensures Within(a, b) && (ok ==> Still(a, b))
  {
    hide SessionRan, ConnectionClosedBy, DrainNoted;
    if a.connection.Some? {
      if event.TransportOpened? {
        SessionRanAsks(a, b, ok);
      } else if event.ClosedEvent? {
        ClosedWithin(a, b, event.reason, event.diagnostic, ok);
      } else if event.Closing? && event.reason.CloseDrained? {
        NotedWithin(a.(open := false), b, ok);
      }
    }
  }

  lemma {:induction false} EventsRanWithin(a: Face, b: Face, events: seq<EngineEvent>)
    requires EventsRan(a, b, events)
    ensures Within(a, b) && Still(a, b)
    decreases |events|
  {
    hide EventSettled, Within;
    if events == [] {
      SameWithin(a);
    } else {
      var n := |events| - 1;
      var mid :| EventsRan(a, mid, events[..n]) && mid.recovery.None? && EventSettled(mid, b, events[n], true);
      EventsRanWithin(a, mid, events[..n]);
      EventWithin(mid, b, events[n], true);
      WithinBoth(a, mid, b);
    }
  }

  lemma EventsWithin(a: Face, b: Face, epoch: nat, events: seq<EngineEvent>, ok: bool)
    requires EventsSettled(a, b, epoch, events, ok)
    ensures Within(a, b) && Still(a, b) && (!ok ==> b.terminal)
  {
    hide EventsRan, EventSettled, DriveFailed;
    var n: nat, mid: Face :| n <= |events| && EventsSettledVia(a, b, epoch, events, n, mid, ok);
    if ok {
      EventsRanWithin(a, b, events[..n]);
    } else {
      var last: Face :|
        EventsRan(a, last, events[..n - 1]) && last.recovery.None? && EventSettled(last, mid, events[n - 1], false);
      EventsRanWithin(a, last, events[..n - 1]);
      EventWithin(last, mid, events[n - 1], false);
      DriveFailedWithin(mid, b, epoch, []);
    }
  }

  lemma BatchesWithin(a: Face, b: Face, outcomes: seq<EngineOutcome>, events: seq<EngineEvent>, n: nat, ok: bool)
    requires BatchesSettled(a, b, outcomes, events, n, ok)
    ensures Within(a, b) && Still(a, b) && (!ok ==> b.terminal)
  {
    hide OutcomesSettled, EventsSettled;
    var mid: Face, first: bool :|
      && OutcomesSettled(a, mid, a.connection.value, outcomes, n, first)
      && if first && mid.recovery.None? then EventsSettled(mid, b, a.connection.value, events, ok) else ok == first && b == mid;
    OutcomesWithin(a, mid, a.connection.value, outcomes, n, first);
    if first && mid.recovery.None? {
      EventsWithin(mid, b, a.connection.value, events, ok);
    }
  }

  lemma DrainFailedWithin(a: Face, b: Face, stale: bool, ok: bool)
    requires DrainFailedAs(a, b, stale, ok)
    ensures Within(a, b) && Still(a, b) && (!ok ==> b.terminal)
  {
  }

  lemma UndrainedWithin(a: Face, b: Face, outcomes: seq<EngineOutcome>, stale: bool, ok: bool)
    requires EventsUndrained(a, b, outcomes, stale, ok)
    ensures Within(a, b) && Still(a, b) && (!ok ==> b.terminal)
  {
    hide DrainFailedAs;
    var mid: Face :|
      && DrainFailedAs(a, mid, stale, ok)
      && if ok then mid.recovery.Some? && b == mid.(recovery := Some(Prepended(mid.recovery.value, outcomes))) else b == mid;
    DrainFailedWithin(a, mid, stale, ok);
  }

  lemma DrainedWithin(a: Face, b: Face, taken: nat, ok: bool)
    requires EngineDrained(a, b, taken, ok)
    ensures Calm(a, b) && Still(a, b) && (!ok ==> b.terminal) && b.record.turns == a.record.turns
  {
    hide DrainFailedAs, BatchesSettled, EventsUndrained;
    var outcomes, asked := Last(b.record.outcomeDrains), a.(record := a.record.(outcomeDrains := b.record.outcomeDrains));
    if !outcomes.Batch? {
      DrainFailedWithin(asked, b, outcomes.DrainStale?, ok);
    } else {
      var events := Last(b.record.eventDrains);
      var drained := asked.(record := asked.record.(eventDrains := b.record.eventDrains));
      if events.Batch? {
        BatchesWithin(drained, b, outcomes.items, events.items, taken, ok);
      } else {
        UndrainedWithin(drained, b, outcomes.items, events.DrainStale?, ok);
      }
    }
  }

  lemma TurnFailedWithin(a: Face, b: Face, ok: bool)
    requires TurnFailed(a, b, ok)
    ensures Within(a, b) && Still(a, b) && (!ok ==> b.terminal)
  {
    hide GivenUp, CaptureSettled;
    var mid: Face, captured: bool :|
      GivenUp(a, mid, false, captured) && if captured then CaptureSettled(mid, b, ok) else !ok && b == mid;
    GivenUpAsks(a, mid, false, captured);
    if captured {
      CaptureWithin(mid, b, ok);
    } else {
      GivenUpOver(a, mid, false);
    }
  }

  lemma CaptureKeepsNone(a: Face, b: Face, ok: bool)
    requires CaptureSettled(a, b, ok)
    ensures b.connection == a.connection
  {
    hide OutcomesEnd, FailedSince, StampedFrom, Told, EntriesTold, GenerationEnds, AfterGeneration, Clean, AdmittedPhase;
    if a.recovery.Some? {
      var reported, named, owners :| RecoveredVia(a.(recovery := None), b, a.recovery.value, reported, named, owners, ok);
    }
  }

  lemma SessionLostBy(a: Face, told: Face, b: Face, otherwise: CloseReason, ok: bool)
    requires One(a.record.sessionEnds, told.record.sessionEnds) && told == SessionTold(a, Last(told.record.sessionEnds))
    requires if !Last(told.record.sessionEnds).accepted then !ok && b == told
      else
        var effective := FirstKnown(told.close, otherwise);
        ContextsLost(told.(close := None, last := Some(effective)), b, effective, ok)
    ensures SessionLost(a, b, otherwise, ok)
  {
    hide ContextsLost;
    if Last(told.record.sessionEnds).accepted {
      var effective := FirstKnown(told.close, otherwise);
      ContextsKeepEnds(told.(close := None, last := Some(effective)), b, effective, ok);
    }
  }

  lemma ContextsKeepEnds(a: Face, b: Face, effective: CloseReason, ok: bool)
    requires ContextsLost(a, b, effective, ok)
    ensures a.record.sessionEnds <= b.record.sessionEnds
  {
    hide StampedFrom, Retired, FailedSince;
    var owners :| ContextsLostVia(a, b, effective, owners, ok);
    if StampedFrom(|a.settled|, owners) {
      RetiredAsks(a.(settled := owners, contents := map[], record := a.record.(touches := b.record.touches)), b,
                  Last(b.record.touches), effective, a.contents != map[], ok);
    }
  }

  lemma DivergedNotOk(a: Face, b: Face, recovery: PendingRecovery, ok: bool)
    requires RecoverySettled(a, b, recovery, ok) && recovery.diverged
    ensures !ok
  {
    var reported, named, owners :| RecoveredVia(a, b, recovery, reported, named, owners, ok);
  }

  lemma NothingRan(a: Face, outcomes: seq<EngineOutcome>)
    ensures OutcomesRan(a, a, outcomes[..0])
  {
  }

  lemma RanNext(a: Face, last: Face, b: Face, outcomes: seq<EngineOutcome>, i: nat)
    requires i < |outcomes| && OutcomesRan(a, last, outcomes[..i]) && last.recovery.None?
    requires OutcomeSettled(last, b, outcomes[i], true)
    ensures OutcomesRan(a, b, outcomes[..i + 1])
  {
    hide OutcomeSettled;
    assert outcomes[..i + 1][..i] == outcomes[..i];
  }

  lemma NoEventsRan(a: Face, events: seq<EngineEvent>)
    ensures EventsRan(a, a, events[..0])
  {
  }

  lemma EventsRanNext(a: Face, last: Face, b: Face, events: seq<EngineEvent>, i: nat)
    requires i < |events| && EventsRan(a, last, events[..i]) && last.recovery.None?
    requires EventSettled(last, b, events[i], true)
    ensures EventsRan(a, b, events[..i + 1])
  {
    hide EventSettled;
    assert events[..i + 1][..i] == events[..i];
  }

  lemma RecoveredBy(a: Face, left: Face, b: Face, recovery: PendingRecovery, reported: seq<Settlement>,
                    named: seq<Settlement>, owners: seq<Settlement>, usable: bool, ok: bool)
    requires One(a.record.sessionEnds, left.record.sessionEnds) && left == Lost(a, recovery, left.record.sessionEnds, owners)
    requires usable <==>
      Clean(recovery, a.contents.Keys) && Last(left.record.sessionEnds).accepted && StampedFrom(|a.settled|, owners)
    requires var reason := FirstKnown(a.close, recovery.report.reason);
      && OwnersTold(a.contents, recovery.report, reason, a.settled, reported, named, owners)
      && RecoveryDecided(left, b, reason, usable, ok)
    ensures RecoverySettled(a, b, recovery, ok)
  {
    hide OwnersTold, Resumed, Clean, StampedFrom, QueueEnded;
    var reason := FirstKnown(a.close, recovery.report.reason);
    if usable {
      ResumedAsks(left, b, reason, ok);
    }
    assert RecoveredVia(a, b, recovery, reported, named, owners, ok);
  }

  lemma ResumedAsks(a: Face, b: Face, reason: CloseReason, ok: bool)
    requires Resumed(a, b, reason, ok)
    ensures b.record == a.record.(policies := b.record.policies)
  {
    hide GenerationEnds, AfterGeneration, ClosedAs;
  }

  lemma LostCleanly(a: Face, b: Face, otherwise: CloseReason)
    requires SessionLost(a, b, otherwise, true)
    ensures b.connection.None? && a.contents == map[]
  {
    hide StampedFrom, FailedSince, GenerationEnds, AfterGeneration, QueueEnded, Over, ClosedAs;
    var told := SessionTold(a, b.record.sessionEnds[|a.record.sessionEnds|]);
    var effective := FirstKnown(told.close, otherwise);
    var owners :| ContextsLostVia(told.(close := None, last := Some(effective)), b, effective, owners, true);
  }

  /** A connection that closes without an error had no context left, and is gone. */
  lemma ClosedCleanly(a: Face, b: Face, reason: EngineClose, diagnostic: Option<TransportFailure>)
    requires ConnectionClosedBy(a, b, reason, diagnostic, true)
    ensures b.connection.None? && a.contents == map[]
  {
    hide SessionLost;
    var shut, otherwise := a.(open := false), ConnectionCloseReason(reason, diagnostic);
    if !reason.CloseDrained? {
      LostCleanly(shut, b, otherwise);
    } else {
      var noted: Face, expected: bool :|
        DrainNoted(shut, noted, expected) && if expected then SessionLost(noted, b, otherwise, true) else false;
      LostCleanly(noted, b, otherwise);
    }
  }
}
