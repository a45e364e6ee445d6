/** What the steps of a lane come to over a whole turn: where queued calls go, and what becomes of drained outcomes. */
module LaneLaws {
  import opened Common
  import opened Requests
  import opened WaitQueueSpec
  import opened RouteWaitingCalls
  import opened PendingCalls
  import opened Contexts
  import opened LaneBooks
  import opened Wire
  import opened Engines
  import opened Endings
  import opened LaneSteps
  import opened LaneEvents

  lemma ForwardBoth(a: Face, b: Face, c: Face)
    requires Forward(a, b) && Forward(b, c)
    ensures Forward(a, c)
  {
    forall k | k in c.contents.Keys * a.accepted ensures k in a.contents.Keys {
      assert k in c.contents.Keys * b.accepted;
      assert k in b.contents.Keys * a.accepted;
    }
  }

  // ------------------------------------------------------------------ preparation

  lemma {:induction false} ExpiryLimits<T>(q: Fifo<T>, now: Moment, n: nat)
    ensures |Expire(q, now, n).1| <= n && (q.items == [] ==> Expire(q, now, n) == (q, []))
    decreases n
  {
    if n > 0 && TakeDue(q, now).1.Some? {
      ExpiryLimits(TakeDue(q, now).0, now, n - 1);
    }
  }

  lemma ExpiryForward(a: Face, now: Moment, budget: nat)
    ensures Forward(a, AfterExpiry(a, now, budget))
  {
    hide Expire;
    ExpiryLimits(a.queue, now, budget);
  }

  lemma TimedKeeps(a: Face, b: Face, ok: bool)
    requires SessionTimed(a, b, ok)
    ensures Calm(a, b) && Still(a, b) && b.record.outcomeDrains == a.record.outcomeDrains
  {
    hide SessionRan;
    if !a.terminal && Last(b.record.sessionTimers) {
      SessionRanAsks(a.(record := a.record.(sessionTimers := b.record.sessionTimers)), b, ok);
    }
  }

  lemma PreparedViaKeeps(a: Face, b: Face, now: Moment, budget: nat, reopened: Face, timed: Face, ok: bool)
    requires PreparedVia(a, b, now, budget, reopened, timed, ok)
    ensures Forward(a, b) && b.record.outcomeDrains == a.record.outcomeDrains && b.recovery.None?
    ensures !b.terminal ==> timed.queue == a.queue && b.queue == Expire(a.queue, now, budget).0
  {
    hide Reconnected, SessionTimed, CaptureSettled, Forward, Expire, Expired;
    var due := AfterExpiry(timed, now, budget);
    ReconnectedAsks(a, reopened, true);
    TimedKeeps(reopened, timed, true);
    ExpiryForward(timed, now, budget);
    CaptureWithin(due, b, ok);
    ForwardBoth(a, reopened, timed);
    ForwardBoth(a, timed, due);
    ForwardBoth(a, due, b);
  }

  /** Preparation only lets calls expire: the rest of the queue is as it was, and so is what is left of the budget. */
  lemma PreparedKeeps(a: Face, b: Face, now: Moment, budget: nat, left: nat, ok: bool)
    requires Prepared(a, b, now, budget, left, ok)
    ensures Forward(a, b) && b.record.outcomeDrains == a.record.outcomeDrains && left <= budget
    ensures ok ==> b.recovery.None?
    ensures ok && !b.terminal ==>
      b.queue == Expire(a.queue, now, budget).0 && left == budget - |Expire(a.queue, now, budget).1|
  {
    hide Reconnected, SessionTimed, PreparedVia, Forward, Expire;
    if !ok && left == 0 && Reconnected(a, b, false) {
      ReconnectedAsks(a, b, false);
    } else if !ok && left == 0 && exists reopened :: Reconnected(a, reopened, true) && SessionTimed(reopened, b, false) {
      var reopened :| Reconnected(a, reopened, true) && SessionTimed(reopened, b, false);
      ReconnectedAsks(a, reopened, true);
      TimedKeeps(reopened, b, false);
      ForwardBoth(a, reopened, b);
    } else {
      var reopened, timed :|
        PreparedVia(a, b, now, budget, reopened, timed, ok) && left == budget - |Expire(timed.queue, now, budget).1|;
      ExpiryLimits(timed.queue, now, budget);
      PreparedViaKeeps(a, b, now, budget, reopened, timed, ok);
    }
  }

  // ------------------------------------------------------------------ admission

  /** The `n` oldest calls left the queue and nothing else did. */
  lemma {:induction false} AllAdmittedKeeps(a: Face, b: Face, n: nat, now: Moment)
    requires AllAdmitted(a, b, n, now) && a.connection.Some?
    ensures Forward(a, b) && b.record.outcomeDrains == a.record.outcomeDrains && b.terminal == a.terminal
    ensures n <= |a.queue.items| && b.queue.items == a.queue.items[n..]
    ensures |b.record.preparations| == |a.record.preparations| + n
    ensures (b.connection == a.connection && b.recovery == a.recovery) || (b.connection.None? && b.recovery.Some?)
    decreases n
  {
    hide Admitted, Forward;
    if n == 0 {
      assert Forward(a, a) by {
        ForwardSame(a);
      }
    } else {
      var mid: Face, full: Option<RequestError> :|
        AllAdmitted(a, mid, n - 1, now) && mid.recovery.None? && NextAdmitted(mid, b, now, full, true);
      AllAdmittedKeeps(a, mid, n - 1, now);
      var taken := mid.(queue := PopFront(mid.queue).0);
      TakenForward(mid);
      AdmittedAsks(taken, b, mid.queue.items[0].value.request, now, full, true);
      AdmittedGoesOn(taken, b, mid.queue.items[0].value.request, now, full, true);
      ForwardBoth(a, mid, taken);
      ForwardBoth(a, taken, b);
    }
  }

  lemma ForwardSame(a: Face)
    ensures Forward(a, a)
  {
  }

  lemma TakenForward(a: Face)
    ensures Forward(a, a.(queue := PopFront(a.queue).0))
  {
  }

  lemma PendingKeeps(a: Face, b: Face, now: Moment, budget: nat, n: nat, ok: bool)
    requires PendingAdmitted(a, b, now, budget, n, ok)
    ensures Forward(a, b) && b.record.outcomeDrains == a.record.outcomeDrains && (!IsReady(a) ==> b == a)
    ensures ok ==>
      && b.terminal == a.terminal && n <= budget && n <= |a.queue.items| && b.queue.items == a.queue.items[n..]
      && ((b.connection == a.connection && b.recovery == a.recovery) || (b.connection.None? && b.recovery.Some?))
      && (IsReady(a) && b.recovery.None? ==> n == budget || b.queue.items == [])
  {
    hide AllAdmitted, NextAdmitted, Forward, Admitted;
    if !IsReady(a) {
      ForwardSame(a);
    } else if ok {
      AllAdmittedKeeps(a, b, n, now);
    } else {
      var mid: Face, full: Option<RequestError> :|
        AllAdmitted(a, mid, n, now) && mid.recovery.None? && NextAdmitted(mid, b, now, full, false);
      AllAdmittedKeeps(a, mid, n, now);
      NextKeeps(mid, b, now, full, false);
      ForwardBoth(a, mid, b);
    }
  }

  lemma NextKeeps(a: Face, b: Face, now: Moment, full: Option<RequestError>, ok: bool)
    requires NextAdmitted(a, b, now, full, ok)
    ensures Forward(a, b) && b.record.outcomeDrains == a.record.outcomeDrains
  {
    hide Admitted, Forward;
    var taken := a.(queue := PopFront(a.queue).0);
    TakenForward(a);
    AdmittedAsks(taken, b, a.queue.items[0].value.request, now, full, ok);
    ForwardBoth(a, taken, b);
  }

  lemma FinishedViaKeeps(a: Face, b: Face, now: Moment, left: nat, n: nat, settled: Face, sent: Face, ok: bool)
    requires FinishedVia(a, b, now, left, n, settled, sent, ok)
    ensures Forward(a, b) && b.record.outcomeDrains == a.record.outcomeDrains && b.recovery.None?
    ensures (a.terminal ==> b.terminal) && (b.connection.Some? ==> b.connection == a.connection)
    ensures !b.terminal ==>
      && n <= left && n <= |a.queue.items| && b.queue.items == a.queue.items[n..]
      && (IsReady(b) ==> n == left || b.queue.items == [])
  {
    hide CaptureSettled, PendingAdmitted, Forward;
    CaptureWithin(a, settled, true);
    assert a.queue.items[0..] == a.queue.items;
    if !IsTerminal(settled) {
      PendingKeeps(settled, sent, now, left, n, true);
      CaptureWithin(sent, b, ok);
      ForwardBoth(a, settled, sent);
      ForwardBoth(a, sent, b);
      if sent.recovery.None? {
        NothingCaptured(sent, b, ok);
      } else {
        CaptureKeepsNone(sent, b, ok);
      }
    }
  }

  lemma NothingCaptured(a: Face, b: Face, ok: bool)
    requires CaptureSettled(a, b, ok) && a.recovery.None?
    ensures ok && b == a
  {
  }

  /**
   * Finishing only admits: the calls left are the newest ones, and a lane that is ready afterwards has admitted as many
   * as it may or has none left.
   */
  lemma FinishedKeeps(a: Face, b: Face, now: Moment, left: nat, n: nat, ok: bool)
    requires Finished(a, b, now, left, n, ok)
    ensures Forward(a, b) && b.record.outcomeDrains == a.record.outcomeDrains
    ensures ok ==> b.recovery.None? && (a.terminal ==> b.terminal) && (b.connection.Some? ==> b.connection == a.connection)
    ensures ok && !b.terminal ==>
      && n <= left && n <= |a.queue.items| && b.queue.items == a.queue.items[n..]
      && (IsReady(b) ==> n == left || b.queue.items == [])
  {
    hide CaptureSettled, PendingAdmitted, Forward, FinishedVia;
    if !ok && n == 0 && CaptureSettled(a, b, false) {
      CaptureWithin(a, b, false);
    } else if settled: Face :|
      !ok && CaptureSettled(a, settled, true) && !IsTerminal(settled) && PendingAdmitted(settled, b, now, left, n, false)
    {
      CaptureWithin(a, settled, true);
      PendingKeeps(settled, b, now, left, n, false);
      ForwardBoth(a, settled, b);
    } else {
      var settled, sent :| FinishedVia(a, b, now, left, n, settled, sent, ok);
      FinishedViaKeeps(a, b, now, left, n, settled, sent, ok);
    }
  }

  // ------------------------------------------------------------------ the turn

  lemma TurnedKeeps(a: Face, b: Face, taken: nat, ok: bool)
    requires Turned(a, b, taken, ok)
    ensures Calm(a, b) && Still(a, b) && (!ok ==> b.terminal)
  {
    hide TurnFailed, EngineDrained, Over;
    var turn, asked := Last(b.record.turns), a.(record := a.record.(turns := b.record.turns));
    if a.connection.Some? {
      if turn.failed {
        TurnFailedWithin(asked, b, ok);
      } else {
        DrainedWithin(asked, b, taken, ok);
      }
    } else if turn.connected && turn.failed {
      OverAsks(asked, b);
    }
  }

  /** The key of a settled outcome that had been accepted is published no more. */
  lemma OutcomeGone(a: Face, b: Face, o: EngineOutcome, ok: bool)
    requires OutcomeSettled(a, b, o, ok) && o.key in a.accepted
    ensures o.key !in b.contents
  {
    hide SessionRan, GivenUp, OutcomeEnds, StampedFrom;
    if o.key in a.contents {
      var settled :| OutcomeSettledVia(a, b, o, settled, ok);
      var mid := a.(contents := a.contents - {o.key}, settled := settled);
      if StampedFrom(|a.settled|, settled) && (a.contents[o.key].Session? || Unusable(o)) {
        SessionRanAsks(mid, b, ok);
        StaysGone(mid, b, o.key);
      }
    } else {
      OutcomeWithin(a, b, o, ok);
      StaysGone(a, b, o.key);
    }
  }

  lemma StaysGone(a: Face, b: Face, key: Key)
    requires Forward(a, b) && key in a.accepted && key !in a.contents
    ensures key !in b.contents
  {
    assert key in b.contents ==> key in b.contents.Keys * a.accepted;
  }

  lemma {:induction false} OutcomesGone(a: Face, b: Face, outcomes: seq<EngineOutcome>, o: EngineOutcome)
    requires OutcomesRan(a, b, outcomes) && o in outcomes && o.key in a.accepted
    ensures o.key !in b.contents
    decreases |outcomes|
  {
    hide OutcomeSettled;
    var n := |outcomes| - 1;
    var mid :| OutcomesRan(a, mid, outcomes[..n]) && mid.recovery.None? && OutcomeSettled(mid, b, outcomes[n], true);
    OutcomesRanWithin(a, mid, outcomes[..n]);
    if o == outcomes[n] {
      OutcomeGone(mid, b, o, true);
    } else {
      assert o in outcomes[..n];
      OutcomesGone(a, mid, outcomes[..n], o);
      OutcomeWithin(mid, b, outcomes[n], true);
      StaysGone(mid, b, o.key);
    }
  }

  /** A drain after which the lane is still connected settled every outcome of its batch. */
  lemma BatchesGone(a: Face, b: Face, outcomes: seq<EngineOutcome>, events: seq<EngineEvent>, n: nat, o: EngineOutcome)
    requires BatchesSettled(a, b, outcomes, events, n, true) && b.connection.Some? && a.recovery.None?
    requires o in outcomes && o.key in a.accepted
    ensures o.key !in b.contents
  {
    hide OutcomesRan, EventsSettled, DriveFailed;
    var mid: Face, first: bool :|
      && OutcomesSettled(a, mid, a.connection.value, outcomes, n, first)
      && if first && mid.recovery.None? then EventsSettled(mid, b, a.connection.value, events, true) else first && b == mid;
    OutcomesWithin(a, mid, a.connection.value, outcomes, n, first);
    var last :| OutcomesSettledVia(a, mid, a.connection.value, outcomes, n, last, true);
    EventsWithin(mid, b, a.connection.value, events, true);
    assert outcomes[..n] == outcomes;
    OutcomesGone(a, mid, outcomes, o);
    StaysGone(mid, b, o.key);
  }

  lemma DrainedGone(a: Face, b: Face, taken: nat, o: EngineOutcome)
    requires EngineDrained(a, b, taken, true) && b.connection.Some? && a.recovery.None?
    ensures One(a.record.outcomeDrains, b.record.outcomeDrains) && Last(b.record.outcomeDrains).Batch?
    ensures o in Last(b.record.outcomeDrains).items && o.key in a.accepted ==> o.key !in b.contents
  {
    hide BatchesSettled, GivenUp;
    var outcomes, asked := Last(b.record.outcomeDrains), a.(record := a.record.(outcomeDrains := b.record.outcomeDrains));
    if !outcomes.Batch? {
      GivenUpParts(asked, b, false, true);
    } else {
      var events := Last(b.record.eventDrains);
      var drained := asked.(record := asked.record.(eventDrains := b.record.eventDrains));
      if events.Batch? {
        if o in outcomes.items && o.key in a.accepted {
          BatchesGone(drained, b, outcomes.items, events.items, taken, o);
        }
      } else {
        var mid: Face :|
          && DrainFailedAs(drained, mid, events.DrainStale?, true) && mid.recovery.Some?
          && b == mid.(recovery := Some(Prepended(mid.recovery.value, outcomes.items)));
        GivenUpParts(drained, mid, false, true);
      }
    }
  }

  lemma GivenUpParts(a: Face, b: Face, diverged: bool, ok: bool)
    requires GivenUp(a, b, diverged, ok)
    ensures b.connection.None?
  {
  }

  /** A turn after which the lane is still connected drained its engine once, and settled every outcome it gave. */
  lemma TurnedGone(a: Face, b: Face, taken: nat, o: EngineOutcome)
    requires Turned(a, b, taken, true) && b.connection.Some? && a.recovery.None?
    ensures One(a.record.outcomeDrains, b.record.outcomeDrains) && Last(b.record.outcomeDrains).Batch?
    ensures o in Last(b.record.outcomeDrains).items && o.key in a.accepted ==> o.key !in b.contents
  {
    hide GivenUp, CaptureSettled, EngineDrained, Over;
    var turn, asked := Last(b.record.turns), a.(record := a.record.(turns := b.record.turns));
    TurnedKeeps(a, b, taken, true);
    if turn.failed {
      var mid: Face, captured: bool :|
        GivenUp(asked, mid, false, captured) && if captured then CaptureSettled(mid, b, true) else false;
      GivenUpParts(asked, mid, false, captured);
      CaptureKeepsNone(mid, b, true);
    } else {
      DrainedGone(asked, b, taken, o);
    }
  }

  // ------------------------------------------------------------------ what drained outcomes tell

  /** Only accepted operations are published. */
  ghost predicate Backed(a: Face) { a.contents.Keys <= a.accepted }

  /** Every context but those under `keys` is where it was. */
  ghost predicate ContextsKept(a: Face, b: Face, keys: set<Key>) {
    forall k :: k in a.contents && k !in keys ==> k in b.contents && b.contents[k] == a.contents[k]
  }

  lemma AskedKeeps(a: Face, b: Face)
    requires AskedEngine(a, b, true)
    ensures b.contents == a.contents && b.accepted == a.accepted
  {
    hide EveryoneTold;
  }

  lemma ExchangeKeeps(a: Face, b: Face, place: bool)
    requires Exchanged(a, b, place, true) && Backed(a)
    ensures ContextsKept(a, b, {}) && Backed(b)
  {
    hide AskedEngine, Over;
    if !place {
      AskedKeeps(a.(open := false, ready := false, close := Some(NegotiationFailed)), b);
    } else {
      var permit := Last(b.record.permits);
      var asked := a.(record := a.record.(permits := b.record.permits, preparations := b.record.preparations));
      if permit.Permit? && CorrelationOf(permit.matchKey).Ok? && Last(b.record.preparations).encoded {
        OfferKeeps(asked, b, CorrelationOf(permit.matchKey).value);
      } else if !permit.ReservePoisoned? {
        AskedKeeps(asked.(open := false, ready := false, close := Some(NegotiationFailed)), b);
      }
    }
  }

  lemma OfferKeeps(a: Face, b: Face, correlation: int)
    requires ExchangeOffered(a, b, correlation, true) && Backed(a)
    ensures ContextsKept(a, b, {}) && Backed(b)
  {
    hide AskedEngine, Over;
    var answer := Last(b.record.commits).answer;
    if TakesFrame(answer).None? {
      AskedKeeps(OnceOffered(a, b).(open := false, ready := false, close := Some(NegotiationFailed)), b);
    }
  }

  lemma EffectKeeps(a: Face, b: Face, effect: SessionEffect, place: bool)
    requires EffectApplied(a, b, effect, place, true) && Backed(a)
    ensures ContextsKept(a, b, {}) && Backed(b)
  {
    hide Exchanged, AskedEngine;
    match effect
    case Exchange => ExchangeKeeps(a, b, place);
    case BecameReady => AskedKeeps(a.(phase := Available, ready := true), b);
    case DrainSession => AskedKeeps(a.(open := false), b);
    case EndSession(reason) => AskedKeeps(a.(open := false, ready := false, close := Some(reason)), b);
    case DeadlineChange =>
  }

  lemma {:induction false} EffectsKeep(a: Face, b: Face, effects: seq<SessionEffect>)
    requires EffectsApplied(a, b, effects, true) && Backed(a)
    ensures ContextsKept(a, b, {}) && Backed(b)
    decreases |effects|
  {
    hide EffectApplied;
    if effects != [] {
      var mid: Face, place: bool, first: bool :|
        && EffectApplied(a, mid, effects[0], place, first)
        && if first then EffectsApplied(mid, b, effects[1..], true) else false;
      EffectKeeps(a, mid, effects[0], place);
      EffectsKeep(mid, b, effects[1..]);
    }
  }

  /** Settling an outcome leaves every other context where it was. */
  lemma OutcomeKeeps(a: Face, b: Face, o: EngineOutcome)
    requires OutcomeSettled(a, b, o, true) && Backed(a)
    ensures ContextsKept(a, b, {o.key}) && Backed(b)
  {
    hide EffectsApplied, OutcomeEnds, StampedFrom, Unusable, Over;
    if o.key in a.contents {
      var settled :| OutcomeSettledVia(a, b, o, settled, true);
      var mid := a.(contents := a.contents - {o.key}, settled := settled);
      if a.contents[o.key].Session? || Unusable(o) {
        EffectsKeep(mid.(record := mid.record.(effects := b.record.effects)), b, Last(b.record.effects));
      }
    }
  }

  lemma {:induction false} OutcomesKeep(a: Face, b: Face, outcomes: seq<EngineOutcome>)
    requires OutcomesRan(a, b, outcomes) && Backed(a)
    ensures ContextsKept(a, b, KeySet(OutcomeNames(outcomes))) && Backed(b)
    decreases |outcomes|
  {
    hide OutcomeSettled;
    if outcomes != [] {
      var n := |outcomes| - 1;
      var mid :| OutcomesRan(a, mid, outcomes[..n]) && mid.recovery.None? && OutcomeSettled(mid, b, outcomes[n], true);
      OutcomesKeep(a, mid, outcomes[..n]);
      OutcomeKeeps(mid, b, outcomes[n]);
      OutcomeNamesNext(outcomes, n);
      assert outcomes[..n + 1] == outcomes;
    }
  }

  lemma OutcomeTells(a: Face, b: Face, o: EngineOutcome, ok: bool)
    requires OutcomeSettled(a, b, o, ok) && o.key in a.contents
    requires a.contents[o.key].Public? && a.contents[o.key].correlation.Some?
    ensures ToldIn(b.settled, |a.settled|, a.contents[o.key], o)
  {
    hide SessionRan, StampedFrom, Tells;
    var settled :| OutcomeSettledVia(a, b, o, settled, ok);
    var mid := a.(contents := a.contents - {o.key}, settled := settled);
    if StampedFrom(|a.settled|, settled) && Unusable(o) {
      SessionRanAsks(mid, b, ok);
    }
    assert b.settled[|a.settled|] == settled[|a.settled|];
  }

  lemma ToldSooner(settled: seq<Settlement>, n: nat, m: nat, context: Context, o: EngineOutcome)
    requires context.Public? && context.correlation.Some? && n <= m && ToldIn(settled, m, context, o)
    ensures ToldIn(settled, n, context, o)
  {
  }

  /** A call whose outcome is among those settled, and is the first for its key, was told what the outcome says. */
  lemma {:induction false} OutcomesTell(a: Face, b: Face, outcomes: seq<EngineOutcome>, i: nat)
    requires OutcomesRan(a, b, outcomes) && Backed(a) && i < |outcomes| && FirstNames(a.contents, outcomes, i)
    ensures ToldIn(b.settled, |a.settled|, a.contents[outcomes[i].key], outcomes[i])
    decreases |outcomes|
  {
    hide OutcomeSettled, ToldIn;
    var n := |outcomes| - 1;
    var mid :| OutcomesRan(a, mid, outcomes[..n]) && mid.recovery.None? && OutcomeSettled(mid, b, outcomes[n], true);
    OutcomesRanWithin(a, mid, outcomes[..n]);
    OutcomeWithin(mid, b, outcomes[n], true);
    if i == n {
      StillPublished(a, mid, outcomes, n);
      OutcomeTells(mid, b, outcomes[n], true);
      ToldSooner(b.settled, |a.settled|, |mid.settled|, a.contents[outcomes[n].key], outcomes[n]);
    } else {
      OutcomesTell(a, mid, outcomes[..n], i);
      ToldStays(mid.settled, b.settled, |a.settled|, a.contents[outcomes[i].key], outcomes[i]);
    }
  }

  lemma StillPublished(a: Face, mid: Face, outcomes: seq<EngineOutcome>, n: nat)
    requires n < |outcomes| && OutcomesRan(a, mid, outcomes[..n]) && Backed(a) && FirstNames(a.contents, outcomes, n)
    ensures outcomes[n].key in mid.contents && mid.contents[outcomes[n].key] == a.contents[outcomes[n].key]
  {
    hide OutcomesRan;
    OutcomesKeep(a, mid, outcomes[..n]);
    var names := OutcomeNames(outcomes[..n]);
    forall j | 0 <= j < |names| ensures names[j] != outcomes[n].key {
      assert names[j] == outcomes[j].key;
    }
  }

  /** That holds of every outcome taken, whatever the drain came to in the end. */
  lemma SettledTell(a: Face, b: Face, epoch: nat, outcomes: seq<EngineOutcome>, n: nat, ok: bool, i: nat)
    requires OutcomesSettled(a, b, epoch, outcomes, n, ok) && Backed(a) && i < n && FirstNames(a.contents, outcomes, i)
    ensures ToldIn(b.settled, |a.settled|, a.contents[outcomes[i].key], outcomes[i])
  {
    hide OutcomesRan, OutcomeSettled, DriveFailed, ToldIn;
    var mid :| OutcomesSettledVia(a, b, epoch, outcomes, n, mid, ok);
    if ok {
      OutcomesTell(a, mid, outcomes[..n], i);
    } else {
      var last: Face :|
        OutcomesRan(a, last, outcomes[..n - 1]) && last.recovery.None? && OutcomeSettled(last, mid, outcomes[n - 1], false);
      OutcomesRanWithin(a, last, outcomes[..n - 1]);
      OutcomeWithin(last, mid, outcomes[n - 1], false);
      DriveFailedWithin(mid, b, epoch, outcomes[n..]);
      if i == n - 1 {
        StillPublished(a, last, outcomes, i);
        OutcomeTells(last, mid, outcomes[i], false);
        ToldSooner(mid.settled, |a.settled|, |last.settled|, a.contents[outcomes[i].key], outcomes[i]);
      } else {
        OutcomesTell(a, last, outcomes[..n - 1], i);
        ToldStays(last.settled, mid.settled, |a.settled|, a.contents[outcomes[i].key], outcomes[i]);
      }
      ToldStays(mid.settled, b.settled, |a.settled|, a.contents[outcomes[i].key], outcomes[i]);
    }
  }

  /**
   * Whatever a turn comes to, the call of every outcome taken was told what the outcome says, and the outcomes not
   * taken are in front of the recovery that took over.
   */
  lemma DrainTells(a: Face, b: Face, outcomes: seq<EngineOutcome>, events: seq<EngineEvent>, n: nat, ok: bool, i: nat)
    requires BatchesSettled(a, b, outcomes, events, n, ok) && Backed(a)
    requires i < |outcomes| && FirstNames(a.contents, outcomes, i)
    ensures n <= |outcomes|
    ensures i < n ==> ToldIn(b.settled, |a.settled|, a.contents[outcomes[i].key], outcomes[i])
    ensures ok && i >= n ==> b.recovery.Some? && outcomes[n..] <= b.recovery.value.report.outcomes
  {
    hide EventsSettled, ToldIn, OutcomesRan, DriveFailed;
    var epoch := a.connection.value;
    var mid: Face, first: bool :|
      && OutcomesSettled(a, mid, epoch, outcomes, n, first)
      && if first && mid.recovery.None? then EventsSettled(mid, b, epoch, events, ok) else ok == first && b == mid;
    if i < n {
      SettledTell(a, mid, epoch, outcomes, n, first, i);
      if first && mid.recovery.None? {
        EventsWithin(mid, b, epoch, events, ok);
        ToldStays(mid.settled, b.settled, |a.settled|, a.contents[outcomes[i].key], outcomes[i]);
      }
    }
  }

  // ------------------------------------------------------------------ a whole drive

  /**
   * After a turn that did not fail and did not end the lane, the queue is what expiry left without the `n` oldest; a
   * lane that is ready then has admitted as many as the budget left it, or has none left.
   */
  ghost predicate QueueDriven(a: Face, b: Face, now: Moment, budget: nat, n: nat) {
    var (rest, expired) := Expire(a.queue, now, budget);
    && |expired| <= budget && n <= budget - |expired| && n <= |rest.items| && b.queue.items == rest.items[n..]
    && (IsReady(b) ==> n == budget - |expired| || b.queue.items == [])
  }

  lemma DrivenKeeps(a: Face, b: Face, now: Moment, budget: nat, n: nat, ok: bool)
    requires Driven(a, b, now, budget, n, ok)
    ensures Forward(a, b) && (ok ==> b.recovery.None?)
    ensures ok && !b.terminal ==> QueueDriven(a, b, now, budget, n)
  {
    hide Prepared, Turned, Finished, Forward, Expire;
    var ready, left, prepared, turned, taken, ran :|
      DrivenVia(a, b, now, budget, n, ready, left, prepared, turned, taken, ran, ok);
    PreparedKeeps(a, ready, now, budget, left, prepared);
    TurnedKeeps(ready, turned, taken, ran);
    ForwardBoth(a, ready, turned);
    if prepared {
      var finished: bool :| Finished(turned, b, now, left, n, finished) && ok == (ran && finished);
      FinishedKeeps(turned, b, now, left, n, finished);
      ForwardBoth(a, turned, b);
    }
  }

  /** A lane still connected after its turn drained its engine once, and is done with everything it was given then. */
  lemma DrivenGone(a: Face, b: Face, now: Moment, budget: nat, n: nat, o: EngineOutcome)
    requires Driven(a, b, now, budget, n, true) && b.connection.Some?
    ensures One(a.record.outcomeDrains, b.record.outcomeDrains) && Last(b.record.outcomeDrains).Batch?
    ensures o in Last(b.record.outcomeDrains).items && o.key in a.accepted ==> o.key !in b.contents
  {
    hide Prepared, Turned, Finished;
    var ready, left, prepared, turned, taken, ran :|
      DrivenVia(a, b, now, budget, n, ready, left, prepared, turned, taken, ran, true);
    PreparedKeeps(a, ready, now, budget, left, prepared);
    FinishedKeeps(turned, b, now, left, n, true);
    TurnedGone(ready, turned, taken, o);
    TurnedKeeps(ready, turned, taken, true);
    if o in Last(b.record.outcomeDrains).items && o.key in a.accepted {
      StaysGone(turned, b, o.key);
    }
  }

  lemma DrivenAllGone(a: Face, b: Face, now: Moment, budget: nat, n: nat)
    requires Driven(a, b, now, budget, n, true) && b.connection.Some?
    ensures One(a.record.outcomeDrains, b.record.outcomeDrains) && Last(b.record.outcomeDrains).Batch?
    ensures forall o :: o in Last(b.record.outcomeDrains).items && o.key in a.accepted ==> o.key !in b.contents
  {
    hide Driven;
    forall o: EngineOutcome
      ensures One(a.record.outcomeDrains, b.record.outcomeDrains) && Last(b.record.outcomeDrains).Batch?
      ensures o in Last(b.record.outcomeDrains).items && o.key in a.accepted ==> o.key !in b.contents
    {
      DrivenGone(a, b, now, budget, n, o);
    }
    DrivenGone(a, b, now, budget, n, EngineOutcome(Key(0, 0), Unrecognised, None));
  }

  lemma DrivenBy(a: Face, b: Face, now: Moment, budget: nat, n: nat, ready: Face, left: nat, turned: Face, taken: nat,
                 ran: bool, finished: bool)
    requires Prepared(a, ready, now, budget, left, true) && Turned(ready, turned, taken, ran)
    requires Finished(turned, b, now, left, n, finished)
    ensures Driven(a, b, now, budget, n, ran && finished)
  {
    hide Prepared, Turned, Finished;
    assert DrivenVia(a, b, now, budget, n, ready, left, true, turned, taken, ran, ran && finished);
  }

  lemma NotPrepared(a: Face, b: Face, now: Moment, budget: nat, ready: Face, left: nat, taken: nat, ran: bool)
    requires Prepared(a, ready, now, budget, left, false) && Turned(ready, b, taken, ran)
    ensures Driven(a, b, now, budget, 0, false)
  {
    hide Prepared, Turned, Finished;
    assert DrivenVia(a, b, now, budget, 0, ready, left, false, b, taken, ran, false);
  }

  lemma PolicyDrainedKeeps(a: Face, b: Face, ok: bool)
    requires PolicyDrained(a, b, ok)
    ensures Forward(a, b)
  {
    hide SessionRan, HostFailed, Forward;
    if a.phase.DrainingPhase? {
      ForwardSame(a);
    } else if LivePhase(a.phase) {
      var start := a.(phase := DrainingPhase);
      var mid :| SessionDrainedVia(start, b, mid, ok);
      if a.connection.Some? {
        SessionRanAsks(start, mid, ok);
      } else {
        ForwardSame(start);
      }
      if !ok {
        FailedForward(mid, b);
        ForwardBoth(start, mid, b);
      }
      PhaseForward(a, start.phase, b);
    } else {
      ClosedForward(a, b.phase);
    }
  }

  lemma ClosedForward(a: Face, phase: Phase)
    ensures Forward(a, a.(terminal := true, phase := phase))
  {
  }

  lemma FailedForward(a: Face, b: Face)
    requires HostFailed(a, b)
    ensures Forward(a, b)
  {
  }

  lemma PhaseForward(a: Face, phase: Phase, b: Face)
    requires Forward(a.(phase := phase), b)
    ensures Forward(a, b)
  {
  }
}
