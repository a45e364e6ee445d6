/**
 * One lane of src/reactor/direct_plaintext: admission, commit, outcome, close and recovery of the
 * public calls it is given, over an engine that may answer anything.
 */
module Lanes {
  import opened Common
  import opened Requests
  import opened WaitQueueSpec
  import opened WaitQueues
  import opened RouteWaitingCalls
  import opened PendingCalls
  import opened Contexts
  import opened LaneBooks
  import opened Wire
  import opened Engines
  import opened Endings
  import opened LaneSteps
  import opened LaneEvents
  import opened LaneLaws

  /** `bind_correlation`: the first binding stays, and a second is answered with false. */
  function Bound(correlation: int): Context -> (Context, bool) {
    (c: Context) => if c.Public? && c.correlation.None? then (Public(c.call, Some(correlation)), true) else (c, false)
  }

  /** A correlation is bound once: the second binding is refused and changes nothing. */
  lemma BindsOnce(call: CallId, first: int, second: int)
    ensures Bound(first)(Public(call, None)) == (Public(call, Some(first)), true)
    ensures Bound(second)(Bound(first)(Public(call, None)).0) == (Public(call, Some(first)), false)
  {
  }

  lemma ContentsWithoutAll<C>(published: map<Key, Published<C>>, keys: set<Key>)
    ensures ContextsOf(published - keys) == ContextsOf(published) - keys
  {
  }

  lemma ContentsWithout<C>(published: map<Key, Published<C>>, key: Key)
    ensures ContextsOf(published - {key}) == ContextsOf(published) - {key}
  {
  }

  lemma NotThere<C>(contents: map<Key, C>, key: Key)
    requires key !in contents
    ensures contents - {key} == contents
  {
  }

  lemma ContentsWith<C>(published: map<Key, Published<C>>, key: Key, p: Published<C>)
    ensures ContextsOf(published[key := p]) == ContextsOf(published)[key := p.context]
  {
  }

  lemma KeysOfContents<C>(published: map<Key, Published<C>>)
    ensures ContextsOf(published).Keys == published.Keys
    ensures ContextsOf(published) == map[] <==> published == map[]
  {
    assert forall k :: k in ContextsOf(published) <==> k in published;
    if published != map[] {
      var k :| k in published;
      assert k in ContextsOf(published);
    }
  }

  lemma ContentsAt<C>(published: map<Key, Published<C>>, key: Key)
    ensures key in ContextsOf(published) <==> key in published
    ensures key in published ==> ContextsOf(published)[key] == published[key].context
  {
  }

  class Lane {
    const engine: Engine
    const contexts: ContextState<Context>
    const pending: PendingRequests
    const causality: CausalSequence
    var connection: Option<nat>
    var phase: Phase
    var sessionReady: bool
    var admissionOpen: bool
    var terminal: bool
    var pendingRecovery: Option<PendingRecovery>
    var generationClose: Option<CloseReason>
    var lastClose: Option<CloseReason>

    /** Every completion handed to a caller, oldest first. */
    var settled: seq<Settlement>

    ghost var given: set<CallId>
    ghost var frames: map<CallId, Key>

    ghost predicate Parts()
      reads contexts, pending, pending.requests, causality
    {
      // Compared with true, here and below, so that the conjunction is proved as one obligation.
      true == (contexts.Valid() && contexts.reserved == 0 && pending.Valid() && causality.next <= U64_MAX)
    }

    ghost function BooksWith(inHand: multiset<CallId>): Books
      requires pending.Valid()
      reads this`given, this`frames, this`settled, engine`accepted, engine`notSent, contexts, pending, pending.requests
    {
      Books(given, frames, CallsOf(pending.Items()), inHand, contexts.Contents(), settled, engine.accepted, engine.notSent)
    }

    /** The parts are sound and every call given to the lane is owned exactly once. */
    ghost predicate Core()
      reads this`given, this`frames, this`settled, engine`accepted, engine`notSent, contexts, pending, pending.requests
      reads causality
    {
      true == (Parts() && Balanced(BooksWith(multiset{})))
    }

    /** At most one of a live connection and a captured recovery, and only in a live phase. */
    ghost predicate OneGeneration()
      reads this`connection, this`pendingRecovery, this`phase, engine`notSent
    {
      true == (
        && (connection.Some? ==> pendingRecovery.None?)
        && (connection.Some? || pendingRecovery.Some? ==> LivePhase(phase))
        && (pendingRecovery.Some? ==> Vouched(pendingRecovery.value.report, engine.notSent)))
    }

    /** No context outlives its generation, and a terminal lane owns no call. */
    ghost predicate NothingStranded()
      requires Parts()
      reads this`connection, this`pendingRecovery, this`phase, this`terminal, contexts, pending, pending.requests, causality
    {
      true == (
        && (connection.None? && pendingRecovery.None? ==> contexts.published == map[])
        && (terminal || phase.PhaseClosed? ==> pending.Items() == [] && PublicCalls(contexts.Contents()) == {}))
    }

    ghost predicate Valid()
      reads this, engine`accepted, engine`notSent, contexts, pending, pending.requests, causality
    {
      true == (Core() && OneGeneration() && NothingStranded())
    }

    /** A lane that owns nothing and has not opened its first generation. */
    constructor (engine: Engine, causality: CausalSequence, maxContexts: nat, maxContextBytes: nat,
                 countLimit: nat, byteLimit: nat)
      requires 1 <= maxContexts <= USIZE_MAX && maxContextBytes <= U64_MAX
      requires 1 <= countLimit <= USIZE_MAX && 1 <= byteLimit <= USIZE_MAX
      requires causality.next <= U64_MAX
      ensures Valid() && given == {} && settled == [] && phase == Connecting && connection == None
      ensures this.engine == engine && this.causality == causality && fresh(contexts) && fresh(pending)
    {
      this.engine, this.causality := engine, causality;
      contexts := new ContextState<Context>(maxContexts, maxContextBytes);
      pending := new PendingRequests(countLimit, byteLimit);
      connection, phase, sessionReady, admissionOpen, terminal := None, Connecting, false, false, false;
      pendingRecovery, generationClose, lastClose, settled := None, None, None, [];
      given, frames := {}, map[];
      new;
      hide Balanced, ContextState.Valid, PendingRequests.Valid, Valid;
      Newborn();
    }

    /** Nothing given, published, queued or completed is accounted for. */
    lemma Newborn()
      requires contexts.Valid() && contexts.reserved == 0 && contexts.published == map[] && causality.next <= U64_MAX
      requires pending.Valid() && pending.Items() == [] && given == {} && frames == map[] && settled == []
      requires connection.None? && pendingRecovery.None?
      ensures Valid()
    {
      hide Balanced, ContextState.Valid, PendingRequests.Valid, PublicCalls, Vouched, CallsOf, ContextsOf;
      EmptyBooks(engine.accepted, engine.notSent);
      NothingHeld();
      NothingPublished(contexts.published);
      assert BooksWith(multiset{}) == Books({}, map[], [], multiset{}, map[], [], engine.accepted, engine.notSent);
    }

    /** What the engine has put on record as not sent stays there. */
    twostate predicate NothingForgotten()
      reads engine`notSent
    {
      old(engine.notSent) <= engine.notSent
    }

    ghost function Line(): Fifo<WaitingCall>
      reads pending, pending.requests
    {
      if pending.Valid() then pending.requests.View() else Fifo([], 0, 0)
    }

    /** What the lane shows. */
    ghost function Look(): Face
      reads this, contexts, pending, pending.requests, engine`accepted, engine`record
    {
      Face(connection, phase, sessionReady, admissionOpen, terminal, pendingRecovery, generationClose, lastClose, settled,
           Line(), contexts.Contents(), given, frames, engine.accepted, engine.record)
    }

    // ---------------------------------------------------------------- completions

    /** The stamp of an observed completion; exhaustion is reported and the call still completes. */
    method Observe(observe: bool) returns (stamp: Option<Stamp>, ok: bool)
      requires causality.next <= U64_MAX
      modifies causality
      ensures causality.next <= U64_MAX
      ensures !observe ==> ok && stamp.None?
      ensures observe ==> (ok <==> stamp.Some?) && (ok <==> old(causality.next) < U64_MAX)
    {
      stamp, ok := None, true;
      if observe {
        stamp := causality.Reserve();
        ok := stamp.Some?;
      }
    }

    /** Takes the context under `key` off the ledger; its call, if any, is then between owners. */
    method Unpublish(key: Key) returns (context: Option<Context>, ghost b: Books)
      requires Core()
      modifies contexts
      ensures Parts() && b == old(BooksWith(multiset{})) && Balanced(b)
      ensures BooksWith(multiset{}) == b.(published := b.published - {key})
      ensures context == if key in b.published then Some(b.published[key]) else None
      ensures context.Some? <==> key in old(contexts.published)
      ensures contexts.published == old(contexts.published) - {key}
      ensures context.None? || context.value.Session? ==> Core()
    {
      hide ContextState.Valid, PendingRequests.Valid, Balanced, CallsOf, ContextsOf;
      b := BooksWith(multiset{});
      ContentsWithout(contexts.published, key);
      ContentsAt(contexts.published, key);
      context := contexts.Release(key);
      assert BooksWith(multiset{}) == b.(published := b.published - {key});
      if context.None? {
        NotThere(b.published, key);
      } else if context.value.Session? {
        ReleaseSession(b, key);
      }
    }

    /** Completes the call of the context just taken off the ledger. */
    method Record(key: Key, s: Settlement, ghost b: Books)
      requires Parts() && Balanced(b) && BooksWith(multiset{}) == b.(published := b.published - {key})
      requires key in b.published && b.published[key].Public? && s.call == b.published[key].call
      requires ClaimsNotSent(s) ==> key in engine.notSent
      modifies this`settled
      ensures Core()
      ensures settled == old(settled) + [s]
    {
      hide ContextState.Valid, PendingRequests.Valid, Balanced, CallsOf, ContextsOf;
      ReleasePublic(b, key, s);
      settled := settled + [s];
      assert BooksWith(multiset{}) == b.(published := b.published - {key}, settled := b.settled + [s]);
    }

    /** `fail_released`, and `fail_context_unobserved` when nothing is observed. */
    method FailReleased(key: Key, error: RequestError, observe: bool) returns (found: bool, ok: bool)
      requires Core()
      requires DeliveryOf(error) == NotSent ==> key in engine.notSent
      modifies this`settled, contexts, causality
      ensures Core()
      ensures found <==> key in old(contexts.published)
      ensures FailedSince(old(settled), settled, error) && |settled| <= |old(settled)| + 1
      ensures contexts.published == old(contexts.published) - {key}
      ensures Told(settled) == Told(old(settled)) + EndOf(old(contexts.Contents()), key, error)
      ensures ok <==> (observe ==> StampedFrom(|old(settled)|, settled))
    {
      hide ContextState.Valid, PendingRequests.Valid, Balanced, CallsOf, ContextsOf, FailedSince, Told, StampedFrom;
      NoneSince(settled, error);
      var context;
      ghost var b;
      context, b := Unpublish(key);
      found, ok := context.Some?, true;
      StampedOne(settled, Fail(0, error, None));
      if context.Some? && context.value.Public? {
        var stamp;
        stamp, ok := Observe(observe);
        var s := Fail(context.value.call, error, stamp);
        OneSince(settled, s, error);
        ToldSnoc(settled, s);
        StampedOne(settled, s);
        Record(key, s, b);
      }
    }

    /** Ends every published context, lowest key first, as possibly sent. */
    method FailRemaining(error: RequestError, observe: bool) returns (released: nat, ok: bool)
      requires Core() && DeliveryOf(error) == PossiblySent
      modifies this`settled, contexts, causality
      ensures Core() && contexts.published == map[]
      ensures released == 0 <==> old(contexts.published) == map[]
      ensures FailedSince(old(settled), settled, error)
      ensures ok <==> (observe ==> StampedFrom(|old(settled)|, settled))
    {
      hide ContextState.Valid, PendingRequests.Valid, Balanced, CallsOf, ContextsOf, BooksWith, FailedSince,
        StampedFrom, Told;
      released, ok := 0, true;
      NoneSince(settled, error);
      StampedOne(settled, Fail(0, error, None));
      while contexts.published != map[]
        invariant Core() && FailedSince(old(settled), settled, error) && old(settled) <= settled
        invariant ok <==> (observe ==> StampedFrom(|old(settled)|, settled))
        invariant released == 0 ==> contexts.published == old(contexts.published)
        invariant released > 0 ==> old(contexts.published) != map[]
        decreases |contexts.published|
      {
        FirstExists(contexts.published.Keys);
        var key :| IsFirst(contexts.published.Keys, key);
        SmallerWithout(contexts.published, key);
        ghost var before := settled;
        var found, observed := FailReleased(key, error, observe);
        SinceThen(old(settled), before, settled, error);
        StampedMore(|old(settled)|, before, settled);
        ok := ok && observed;
        released := released + 1;
      }
    }

    /** Ends every queued call with one error, oldest first. */
    method FailPending(error: RequestError, observe: bool) returns (ok: bool)
      requires Core() && DeliveryOf(error) == NotSent
      modifies this`settled, pending, pending.requests, causality
      ensures Core() && pending.Items() == []
      ensures FailedSince(old(settled), settled, error)
      ensures Told(settled) == Told(old(settled)) + AllEnd(old(CallsOf(pending.Items())), error)
      ensures ok <==> (observe ==> StampedFrom(|old(settled)|, settled))
    {
      hide ContextState.Valid, PendingRequests.Valid, Balanced, BooksWith, FailedSince, StampedFrom, Told, CallsOf;
      ok := true;
      NoneSince(settled, error);
      StampedOne(settled, Fail(0, error, None));
      while true
        invariant Core() && FailedSince(old(settled), settled, error) && old(settled) <= settled
        invariant Told(settled) + AllEnd(CallsOf(pending.Items()), error)
          == Told(old(settled)) + AllEnd(old(CallsOf(pending.Items())), error)
        invariant ok <==> (observe ==> StampedFrom(|old(settled)|, settled))
        decreases |pending.Items()|
      {
        ghost var before := settled;
        var found, observed := FailNext(error, observe);
        ok := ok && observed;
        SinceThen(old(settled), before, settled, error);
        StampedMore(|old(settled)|, before, settled);
        if !found {
          break;
        }
      }
      assert CallsOf(pending.Items()) == [];
    }

    method FailNext(error: RequestError, observe: bool) returns (found: bool, ok: bool)
      requires Core() && DeliveryOf(error) == NotSent
      modifies this`settled, pending, pending.requests, causality
      ensures Core() && FailedSince(old(settled), settled, error)
      ensures found ==> |pending.Items()| < |old(pending.Items())|
      ensures !found ==> pending.Items() == [] && settled == old(settled) && old(pending.Items()) == []
      ensures Told(settled) + AllEnd(CallsOf(pending.Items()), error)
        == Told(old(settled)) + AllEnd(old(CallsOf(pending.Items())), error)
      ensures ok <==> (observe ==> StampedFrom(|old(settled)|, settled))
    {
      hide ContextState.Valid, PendingRequests.Valid, Balanced, FailedSince, StampedFrom, Told, PopFront, ContextsOf;
      NoneSince(settled, error);
      ghost var b := BooksWith(multiset{});
      ghost var items := pending.Items();
      StampedOne(settled, Fail(0, error, None));
      var request := pending.Pop();
      if request.None? {
        return false, true;
      }
      var stamp;
      stamp, ok := Observe(observe);
      var s := Fail(request.value.call, error, stamp);
      SettleFirst(b, s);
      OneSince(settled, s, error);
      ToldSnoc(settled, s);
      StampedOne(settled, s);
      AllEndFirst(Told(settled), b.pending, error);
      settled := settled + [s];
      assert CallsOf(items[1..]) == b.pending[1..];
      assert BooksWith(multiset{}) == b.(pending := b.pending[1..], settled := b.settled + [s]);
      found := true;
    }

    /** Ends the recovered or discarded operations of a report with the delivery recorded for each. */
    method FailEntries(epoch: nat, entries: seq<Entry>, reason: CloseReason, observe: bool) returns (allFound: bool, ok: bool)
      requires Core() && EntriesVouched(epoch, entries, engine.notSent)
      modifies this`settled, contexts, causality
      ensures Core() && old(settled) <= settled
      ensures contexts.published == old(contexts.published) - KeySet(NamedBy(epoch, entries))
      ensures Told(settled) == Told(old(settled)) + EntriesTold(old(contexts.Contents()), epoch, entries, reason)
      ensures allFound <==> FoundIn(NamedBy(epoch, entries), old(contexts.published).Keys)
      ensures ok <==> (observe ==> StampedFrom(|old(settled)|, settled))
    {
      hide ContextState.Valid, PendingRequests.Valid, Balanced, Parts, Told, EntriesTold, EndOf, FoundIn, KeySet,
        StampedFrom, NamedBy, ContextsOf, FailedSince;
      allFound, ok := true, true;
      ghost var published := contexts.published;
      NamedNone(epoch, entries, published, reason);
      StampedOne(settled, Fail(0, Decode, None));
      for i := 0 to |entries|
        invariant Core() && old(settled) <= settled
        invariant contexts.published == published - KeySet(NamedBy(epoch, entries[..i]))
        invariant Told(settled) == Told(old(settled)) + EntriesTold(ContextsOf(published), epoch, entries[..i], reason)
        invariant allFound <==> FoundIn(NamedBy(epoch, entries[..i]), published.Keys)
        invariant ok <==> (observe ==> StampedFrom(|old(settled)|, settled))
      {
        ghost var before, names := settled, NamedBy(epoch, entries[..i]);
        ghost var key := Key(epoch, entries[i].operation);
        EntriesToldNext(ContextsOf(published), epoch, entries, i, reason);
        FoundNext(names, key, published.Keys);
        ContentsWithoutAll(published, KeySet(names));
        var found, observed := FailReleased(Key(epoch, entries[i].operation), Recovery(reason, entries[i].delivery), observe);
        PrefixSince(before, settled, Recovery(reason, entries[i].delivery));
        StampedMore(|old(settled)|, before, settled);
        allFound, ok := allFound && found, ok && observed;
      }
      assert entries[..|entries|] == entries;
    }

    function FallbackReason(): CloseReason
      reads this
    {
      Fallback(generationClose, lastClose)
    }

    /** The calls of the named outcomes all end with one error, unobserved. */
    method FailOutcomes(outcomes: seq<EngineOutcome>, error: RequestError)
      requires Core() && DeliveryOf(error) == PossiblySent
      modifies this`settled, contexts, causality
      ensures Core() && old(settled) <= settled
      ensures contexts.published == old(contexts.published) - KeySet(OutcomeNames(outcomes))
      ensures Told(settled) == Told(old(settled)) + KeysTold(old(contexts.Contents()), OutcomeNames(outcomes), error)
    {
      hide ContextState.Valid, PendingRequests.Valid, Balanced, Parts, Told, KeysTold, EndOf, KeySet, OutcomeNames, ContextsOf,
        StampedFrom, FailedSince, FoundIn;
      ghost var published := contexts.published;
      ReportedNone(outcomes, published);
      assert KeysTold(ContextsOf(published), [], error) == [] by {
        NoKeysTold(ContextsOf(published), error);
      }
      for i := 0 to |outcomes|
        invariant Core() && old(settled) <= settled
        invariant contexts.published == published - KeySet(OutcomeNames(outcomes[..i]))
        invariant Told(settled) == Told(old(settled)) + KeysTold(ContextsOf(published), OutcomeNames(outcomes[..i]), error)
      {
        ghost var before, names := settled, OutcomeNames(outcomes[..i]);
        OutcomeNamesNext(outcomes, i);
        KeysToldNext(ContextsOf(published), names, outcomes[i].key, error);
        FoundNext(names, outcomes[i].key, {});
        ContentsWithoutAll(published, KeySet(names));
        var found, ok := FailReleased(outcomes[i].key, error, false);
        PrefixSince(before, settled, error);
      }
      assert outcomes[..|outcomes|] == outcomes;
    }

    /**
     * A second recovery while one is captured: everything it names ends now, unobserved, the outcomes as possibly
     * sent and the operations with their recorded delivery; whatever is left was possibly sent.
     */
    method TotalizeDuplicateRecovery(report: Report) returns (ghost named: seq<Settlement>)
      requires Core() && Vouched(report, engine.notSent)
      modifies this`settled, contexts, causality
      ensures Core() && contexts.published == map[] && old(settled) <= named <= settled
      ensures var contents, reason := old(contexts.Contents()), old(FallbackReason());
        var left := contents - KeySet(OutcomeNames(report.outcomes));
        Told(named) == Told(old(settled))
          + KeysTold(contents, OutcomeNames(report.outcomes), Recovery(reason, PossiblySent))
          + EntriesTold(left, report.epoch, report.operations, reason)
          + EntriesTold(left - KeySet(NamedBy(report.epoch, report.operations)), report.epoch, report.unmatchedWrites, reason)
      ensures FailedSince(named, settled, Recovery(old(FallbackReason()), PossiblySent))
    {
      hide ContextState.Valid, PendingRequests.Valid, Balanced, Parts, Told, KeysTold, EntriesTold, KeySet, OutcomeNames,
        NamedBy, ContextsOf, StampedFrom, FailedSince, FoundIn, OutcomesVouched, EntriesVouched;
      var reason := FallbackReason();
      var fallback := Recovery(reason, PossiblySent);
      ghost var present := contexts.published;
      FailOutcomes(report.outcomes, fallback);
      ContentsWithoutAll(present, KeySet(OutcomeNames(report.outcomes)));
      ghost var left := contexts.published;
      var f1, ok1 := FailEntries(report.epoch, report.operations, reason, false);
      ContentsWithoutAll(left, KeySet(NamedBy(report.epoch, report.operations)));
      var f2, ok2 := FailEntries(report.epoch, report.unmatchedWrites, reason, false);
      named := settled;
      var released, ok := FailRemaining(fallback, false);
      PrefixSince(named, settled, fallback);
    }

    /** `capture_recovery_with` of src/reactor/direct_plaintext/owner.rs. */
    method CaptureRecovery(report: Report, diverged: bool)
      requires Valid() && Vouched(report, engine.notSent)
      requires connection.Some? || pendingRecovery.Some?
      modifies this`connection, this`admissionOpen, this`pendingRecovery, this`settled, contexts, causality
      ensures Valid() && connection.None? && pendingRecovery.Some? && !admissionOpen && old(settled) <= settled
      ensures old(pendingRecovery).None? ==>
        && pendingRecovery.value == PendingRecovery(report, diverged || old(connection) != Some(report.epoch))
        && settled == old(settled) && contexts.published == old(contexts.published) && causality.next == old(causality.next)
      ensures old(pendingRecovery).Some? ==>
        pendingRecovery.value == PendingRecovery(old(pendingRecovery).value.report, true) && contexts.published == map[]
    {
      hide ContextState.Valid, PendingRequests.Valid, Balanced, Vouched, Told, KeysTold, EntriesTold,
        KeySet, OutcomeNames, NamedBy, FailedSince;
      var tokenDiverged := connection.None? || connection.value != report.epoch;
      connection := None;
      admissionOpen := false;
      if pendingRecovery.Some? {
        pendingRecovery := Some(PendingRecovery(pendingRecovery.value.report, true));
        ghost var named := TotalizeDuplicateRecovery(report);
      } else {
        pendingRecovery := Some(PendingRecovery(report, diverged || tokenDiverged));
      }
    }

    /** Ends every call the lane owns: published ones as possibly sent, queued ones as not sent. */
    method EndEverything(reason: CloseReason, observe: bool)
      requires Core()
      modifies this`terminal, this`settled, contexts, pending, pending.requests, causality
      ensures Core() && NothingStranded() && contexts.published == map[] && EveryoneTold(old(Look()), Look(), reason)
      ensures Look() == old(Look()).(terminal := true, settled := settled, queue := Line(), contents := map[])
    {
      hide ContextState.Valid, PendingRequests.Valid, Balanced, CallsOf, ContextsOf, FailedSince, Told, AllEnd, StampedFrom;
      NothingHeld();
      ghost var a := Look();
      var released, ok1 := FailRemaining(Recovery(reason, PossiblySent), observe);
      ghost var owners := settled;
      PrefixSince(a.settled, owners, Recovery(reason, PossiblySent));
      NothingPublished(contexts.published);
      var ok2 := FailPending(Recovery(reason, NotSent), observe);
      PrefixSince(owners, settled, Recovery(reason, NotSent));
      terminal := true;
      assert EveryoneToldVia(a, Look(), reason, owners);
    }

    /** Total settlement when generation ownership becomes impossible. Always an error. */
    method GenerationInvariantFatal(observe: bool)
      requires Core() && OneGeneration()
      modifies this`connection, this`admissionOpen, this`terminal, this`generationClose, this`lastClose, this`settled,
               this`sessionReady, contexts, pending, pending.requests, causality, engine`record
      ensures Valid() && contexts.published == map[] && Over(old(Look()), Look())
    {
      hide ContextState.Valid, PendingRequests.Valid, Balanced, Vouched, ContextsOf, EveryoneTold, Line, BooksWith, Over, Core,
        NothingStranded;
      var reason := FallbackReason();
      ghost var a := Look();
      admissionOpen := false;
      var closed := SessionClosed();
      connection := None;
      lastClose := Some(reason);
      ghost var told := Look();
      EndEverything(reason, observe);
      OverBy(a, told, Look(), reason);
    }

    /** `host_fatal` of src/reactor/direct_plaintext/reconnect.rs. */
    method HostFatal()
      requires Core() && OneGeneration()
      modifies this`admissionOpen, this`terminal, this`settled, contexts, pending, pending.requests, causality
      ensures Valid() && contexts.published == map[] && HostFailed(old(Look()), Look())
    {
      hide ContextState.Valid, PendingRequests.Valid, Balanced, Vouched, ContextsOf, EveryoneTold, Line, BooksWith;
      var reason := FallbackReason();
      ghost var a := Look();
      admissionOpen := false;
      ghost var told := Look();
      EndEverything(reason, false);
      EveryoneToldSince(a, told, Look(), reason);
    }

    /** The session machine is told of the end; the reason it then gives, if any, counts. */
    method SessionClosed() returns (accepted: bool)
      modifies this`sessionReady, this`generationClose, engine`record
      ensures One(old(engine.record).sessionEnds, engine.record.sessionEnds)
      ensures accepted == Last(engine.record.sessionEnds).accepted
      ensures Look() == SessionTold(old(Look()), Last(engine.record.sessionEnds))
    {
      hide Line, ContextsOf, PendingRequests.Valid;
      var end := engine.EndSession();
      sessionReady, accepted := false, end.accepted;
      if end.accepted && end.recorded.Some? {
        generationClose := end.recorded;
      }
    }

    /** `recover_failed_generation` and `abandon_generation`; a refusal is fatal for the lane. */
    method Recover(observe: bool, diverged: bool) returns (ok: bool)
      requires Valid() && connection.Some?
      modifies this, engine, contexts, pending, pending.requests, causality
      ensures Valid() && NothingForgotten() && connection.None? && (ok <==> pendingRecovery.Some?)
      ensures GivenUp(old(Look()), Look(), diverged, ok)
    {
      hide ContextState.Valid, PendingRequests.Valid, Balanced, Vouched, ContextsOf;
      var report := engine.Surrender();
      LearnMore();
      if report.None? {
        GenerationInvariantFatal(observe);
        return false;
      }
      CaptureRecovery(report.value, diverged);
      ok := true;
    }

    /** The engine may have put more keys on record as not sent. */
    twostate lemma LearnMore()
      requires old(Valid())
      requires old(engine.notSent) <= engine.notSent && engine.accepted == old(engine.accepted)
      requires unchanged(this, contexts, pending, pending.requests, causality)
      ensures Valid()
    {
      hide ContextState.Valid, PendingRequests.Valid, Balanced;
      var b := old(BooksWith(multiset{}));
      Learn(b, engine.notSent);
      assert BooksWith(multiset{}) == b.(notSent := engine.notSent);
    }

    // ---------------------------------------------------------------- session

    /** One reservation is open and the calls `inHand` are between owners. */
    ghost predicate Holding(reservation: ContextReservation<Context>, inHand: multiset<CallId>)
      reads this, engine`accepted, engine`notSent, contexts, pending, pending.requests, causality, reservation
    {
      true == (
        && contexts.Valid() && contexts.reserved == 1 && reservation.Holds(contexts)
        && pending.Valid() && causality.next <= U64_MAX
        && Balanced(BooksWith(inHand))
        && OneGeneration() && connection.Some?)
    }

    method AbortSession(reservation: ContextReservation<Context>)
      requires Holding(reservation, multiset{}) && (terminal || phase.PhaseClosed? ==> NoCalls())
      modifies reservation, contexts
      ensures Valid() && contexts.published == old(contexts.published)
    {
      hide ContextState.Valid, PendingRequests.Valid, Balanced, CallsOf, Vouched;
      ghost var b := BooksWith(multiset{});
      var context := reservation.Abort();
      assert BooksWith(multiset{}) == b;
    }

    ghost predicate NoCalls()
      requires pending.Valid()
      reads contexts, pending, pending.requests
    {
      pending.Items() == [] && PublicCalls(contexts.Contents()) == {}
    }

    /** Publishes an accepted session operation; the key is new, so publication cannot be refused. */
    method PublishSession(reservation: ContextReservation<Context>, key: Key, ghost b: Books)
      requires contexts.Valid() && contexts.reserved == 1 && reservation.Holds(contexts)
      requires pending.Valid() && causality.next <= U64_MAX && OneGeneration() && connection.Some?
      requires reservation.context == Some(Session)
      requires Balanced(b) && key !in b.accepted && BooksWith(multiset{}) == b.(accepted := b.accepted + {key})
      requires terminal || phase.PhaseClosed? ==> NoCalls()
      modifies reservation, contexts
      ensures Valid() && contexts.Contents() == old(contexts.Contents())[key := Session]
      ensures contexts.published.Keys == old(contexts.published).Keys + {key}
    {
      hide ContextState.Valid, PendingRequests.Valid, Balanced, CallsOf, Vouched, ContextsOf;
      AcceptSession(b, key);
      PublicWith(b.published, key, Session);
      ContentsAt(contexts.published, key);
      ContentsWith(contexts.published, key, Published(Session, reservation.bytes));
      var refused := reservation.Publish(key);
      if refused.Some? {
        assert false;
      }
      assert BooksWith(multiset{}) == b.(accepted := b.accepted + {key}, published := b.published[key := Session]);
    }

    /** `start_negotiation` and `commit_negotiation`: one session exchange over the live connection. */
    method StartExchange() returns (ok: bool)
      requires Valid() && connection.Some?
      modifies this, engine, contexts, pending, pending.requests, causality
      ensures Valid() && NothingForgotten()
      ensures Exchanged(old(Look()), Look(), old(LedgerRefusal(0)).None?, ok)
    {
      hide ContextState.Valid, PendingRequests.Valid, Balanced, CallsOf, Vouched, ContextsOf,
        ExchangeCommitted, SessionCloses;
      ghost var b := BooksWith(multiset{});
      var reserved := contexts.Reserve(Session, 0);
      assert BooksWith(multiset{}) == b;
      if reserved.Refused? {
        ok := CloseSession(NegotiationFailed);
        return;
      }
      ok := CommitExchange(reserved.reservation);
    }

    /** An accepted session operation is published under its key; any other answer leaves the ledger as it was. */
    method CommitExchange(reservation: ContextReservation<Context>) returns (ok: bool)
      requires Holding(reservation, multiset{}) && reservation.context == Some(Session)
      requires terminal || phase.PhaseClosed? ==> NoCalls()
      modifies this, engine, contexts, pending, pending.requests, causality, reservation
      ensures Valid() && NothingForgotten()
      ensures ExchangeCommitted(old(Look()), Look(), ok)
    {
      hide ContextState.Valid, PendingRequests.Valid, Balanced, CallsOf, Vouched, ContextsOf, BooksWith, Valid, NoCalls, Line,
        ExchangeOffered, TurnedDown, ExchangeCommitted;
      ghost var a := Look();
      var permit := engine.ReserveOperation();
      var prepared := engine.Prepare();
      ghost var asked := Look();
      if permit.Permit? && CorrelationOf(permit.matchKey).Ok? && prepared.encoded {
        ok := OfferExchange(reservation, CorrelationOf(permit.matchKey).value);
      } else {
        AbortSession(reservation);
        ok := ExchangeRefused(permit.ReserveStale?, permit.ReservePoisoned?);
      }
      ExchangeCommittedBy(a, asked, Look(), permit, prepared, ok);
    }

    method OfferExchange(reservation: ContextReservation<Context>, correlation: int) returns (ok: bool)
      requires Holding(reservation, multiset{}) && reservation.context == Some(Session)
      requires terminal || phase.PhaseClosed? ==> NoCalls()
      modifies this, engine, contexts, pending, pending.requests, causality, reservation
      ensures Valid() && NothingForgotten()
      ensures ExchangeOffered(old(Look()), Look(), correlation, ok)
    {
      hide ContextState.Valid, PendingRequests.Valid, Balanced, CallsOf, Vouched, ContextsOf, GivenUp, TurnedDown,
        ExchangeOffered, Valid, NoCalls, Line;
      ghost var b, a := BooksWith(multiset{}), Look();
      var answer := engine.Commit(connection.value, correlation);
      ghost var asked := Look();
      if answer.Accepted? || answer.AcceptedOwnerFailure? {
        var key := Key(connection.value, answer.operation);
        assert BooksWith(multiset{}) == b.(accepted := b.accepted + {key});
        ok := ExchangeAccepted(reservation, key, answer.AcceptedOwnerFailure?, b);
      } else {
        assert BooksWith(multiset{}) == b;
        AbortSession(reservation);
        ok := ExchangeRefused(answer.CommitStale?, false);
      }
      ExchangeOfferedBy(a, asked, Look(), correlation, answer, ok);
    }

    method ExchangeAccepted(reservation: ContextReservation<Context>, key: Key, ownerFailed: bool, ghost b: Books)
      returns (ok: bool)
      requires contexts.Valid() && contexts.reserved == 1 && reservation.Holds(contexts)
      requires pending.Valid() && causality.next <= U64_MAX && OneGeneration() && connection.Some?
      requires reservation.context == Some(Session)
      requires Balanced(b) && key !in b.accepted && BooksWith(multiset{}) == b.(accepted := b.accepted + {key})
      requires terminal || phase.PhaseClosed? ==> NoCalls()
      modifies this, engine, contexts, pending, pending.requests, causality, reservation
      ensures Valid() && NothingForgotten()
      ensures var published := old(Look()).(contents := old(Look()).contents[key := Session]);
        if ownerFailed then GivenUp(published, Look(), false, ok) else ok && Look() == published
    {
      hide ContextState.Valid, PendingRequests.Valid, Balanced, CallsOf, Vouched, ContextsOf, GivenUp;
      PublishSession(reservation, key, b);
      PublishedAccepted();
      ok := true;
      if ownerFailed {
        ok := Recover(false, false);
      }
    }

    /** Only accepted operations are published. */
    lemma PublishedAccepted()
      requires Core()
      ensures forall k :: k in contexts.published ==> k in engine.accepted
    {
      hide ContextState.Valid, PendingRequests.Valid;
      forall k | k in contexts.published ensures k in engine.accepted {
        ContentsAt(contexts.published, k);
      }
    }

    method ExchangeRefused(stale: bool, poisoned: bool) returns (ok: bool)
      requires Valid() && connection.Some?
      modifies this, engine, contexts, pending, pending.requests, causality
      ensures Valid() && NothingForgotten() && TurnedDown(old(Look()), Look(), stale, poisoned, ok)
    {
      hide ContextState.Valid, PendingRequests.Valid, Balanced, CallsOf, Vouched, Core, GivenUp, SessionCloses,
        Over, ContextsOf;
      if stale {
        GenerationInvariantFatal(false);
        ok := false;
      } else if poisoned {
        ok := Recover(false, false);
      } else {
        ok := CloseSession(NegotiationFailed);
      }
    }

    /** A request to the engine about the live connection: stale is fatal, an owner failure recovers. */
    method Ask() returns (ok: bool)
      requires Valid() && connection.Some?
      modifies this, engine, contexts, pending, pending.requests, causality
      ensures Valid() && NothingForgotten() && AskedEngine(old(Look()), Look(), ok)
    {
      hide ContextState.Valid, PendingRequests.Valid, Balanced, CallsOf, Vouched, Core, GivenUp, Over, ContextsOf;
      var answer := engine.Touch();
      ghost var asked := Look();
      match answer
      case Fine => ok := true;
      case AccessStale =>
        GenerationInvariantFatal(false);
        ok := false;
        OverAsks(asked, Look());
      case AccessOwnerFailed =>
        ok := Recover(false, false);
        GivenUpAsks(asked, Look(), false, ok);
      case AccessOther => ok := false;
    }

    method CloseSession(reason: CloseReason) returns (ok: bool)
      requires Valid() && connection.Some?
      modifies this, engine, contexts, pending, pending.requests, causality
      ensures Valid() && NothingForgotten() && SessionCloses(old(Look()), Look(), reason, ok)
    {
      hide ContextState.Valid, PendingRequests.Valid, Balanced, CallsOf, Vouched, AskedEngine, ContextsOf;
      admissionOpen, sessionReady := false, false;
      generationClose := Some(reason);
      ok := Ask();
    }

    /** `settle_admission_opened` and the broker machine's `ConnectionReady`. */
    method BecomeReady() returns (ok: bool)
      requires Valid() && connection.Some?
      modifies this`phase
      ensures Valid() && (ok <==> old(phase).Connecting?)
      ensures phase == if ok then Available else old(phase)
    {
      hide ContextState.Valid, PendingRequests.Valid, Balanced, CallsOf, Vouched;
      ok := phase.Connecting?;
      if ok {
        phase := Available;
      }
    }

    method ApplyEffect(effect: SessionEffect) returns (ok: bool)
      requires Valid()
      modifies this, engine, contexts, pending, pending.requests, causality
      ensures Valid() && NothingForgotten()
      ensures EffectApplied(old(Look()), Look(), effect, old(LedgerRefusal(0)).None?, ok)
    {
      hide ContextState.Valid, PendingRequests.Valid, Balanced, CallsOf, Vouched, AskedEngine, SessionCloses,
        ContextsOf;
      if effect.DeadlineChange? {
        return true;
      }
      if connection.None? {
        return false;
      }
      match effect
      case Exchange => ok := StartExchange();
      case BecameReady =>
        ok := BecomeReady();
        if ok {
          sessionReady := true;
          ok := Ask();
        }
      case DrainSession =>
        admissionOpen := false;
        ok := Ask();
      case EndSession(reason) => ok := CloseSession(reason);
    }

    /** The session machine, which may answer any input with any effects, applied in order up to the first error. */
    method SessionInput() returns (ok: bool)
      requires Valid()
      modifies this, engine, contexts, pending, pending.requests, causality
      ensures Valid() && NothingForgotten()
      ensures SessionRan(old(Look()), Look(), ok)
    {
      hide ContextState.Valid, PendingRequests.Valid, Balanced, CallsOf, Vouched, Valid, EffectApplied,
        EffectsApplied, ContextsOf;
      var effects := engine.Effects();
      ghost var asked := Look();
      ok := ApplyEffects(effects);
      EffectsAppliedAsk(asked, Look(), effects, ok);
    }

    method ApplyEffects(effects: seq<SessionEffect>) returns (ok: bool)
      requires Valid()
      modifies this, engine, contexts, pending, pending.requests, causality
      ensures Valid() && NothingForgotten()
      ensures EffectsApplied(old(Look()), Look(), effects, ok)
      decreases |effects|
    {
      hide ContextState.Valid, PendingRequests.Valid, Balanced, CallsOf, Vouched, Valid, EffectApplied, ContextsOf;
      ok := true;
      if effects != [] {
        ghost var place := LedgerRefusal(0).None?;
        ghost var a := Look();
        var first := ApplyEffect(effects[0]);
        ghost var mid := Look();
        assert EffectApplied(a, mid, effects[0], place, first);
        ok := first;
        if first {
          ok := ApplyEffects(effects[1..]);
        }
      }
    }

    // ---------------------------------------------------------------- outcomes

    function EffectiveReason(recoveryReason: Option<CloseReason>, otherwise: CloseReason): CloseReason
      reads this`generationClose
    {
      if recoveryReason.Some? then recoveryReason.value
      else if generationClose.Some? then generationClose.value
      else otherwise
    }

    /** Why the connection of an outcome closed, if that is known already: the recovery's reason, then the session's. */
    function KnownReason(recoveryReason: Option<CloseReason>): Option<CloseReason>
      reads this`generationClose
    {
      if recoveryReason.Some? then recoveryReason else generationClose
    }

    /** The end `settle_public_outcome` gives to the call of a published context. */
    method JudgeOutcome(context: Context, o: EngineOutcome, recoveryReason: Option<CloseReason>)
      returns (s: Settlement, ok: bool, malformed: bool)
      requires context.Public? && Classified(o) && causality.next <= U64_MAX
      modifies causality
      ensures causality.next <= U64_MAX && s.call == context.call
      ensures ClaimsNotSent(s) <==> SaysNotSent(o) || (ok && o.outcome.Replied? && context.correlation.None?)
      ensures s.outcome.Reply? <==> ok && o.outcome == Replied(Decodes) && context.correlation.Some?
      ensures ok <==> s.observed.Some?
      ensures ok <==> old(causality.next) < U64_MAX
      ensures context.correlation.Some? ==> Tells(s, context.correlation.value, o, KnownReason(recoveryReason))
      ensures context.correlation.Some? ==> (malformed <==> ok && o.outcome.Replied? && !o.outcome.body.Decodes?)
    {
      var stamp;
      stamp, ok := Observe(true);
      malformed := false;
      match o.outcome
      case Replied(body) =>
        if !ok {
          s := Fail(context.call, Recovery(EffectiveReason(recoveryReason, TransportLost(Other)), PossiblySent), None);
        } else if context.correlation.None? {
          malformed := true;
          s := Fail(context.call, IdentityConflict, stamp);
        } else {
          malformed := !body.Decodes?;
          match body
          case Decodes => s := Settlement(context.call, Reply, stamp);
          case Undecodable => s := Fail(context.call, Decode, stamp);
          case WrongCorrelation(received) =>
            s := Fail(context.call, SentAs(CorrelationMismatch(context.correlation.value, received), PossiblySent), stamp);
        }
      case FailedBy(failure, delivery) =>
        OperationKeepsDelivery(failure, delivery);
        var error :=
          if failure.ClosedUnder?
          then Recovery(EffectiveReason(recoveryReason, ConnectionCloseReason(failure.reason, o.diagnostic)), delivery)
          else Operation(failure, delivery);
        s := Fail(context.call, error, stamp);
      case Cancelled(delivery) => s := Fail(context.call, SentAs(LocallyRejected, delivery), stamp);
      case WriteComplete(delivery) => s := Fail(context.call, SentAs(LocallyRejected, delivery), stamp);
      case Unrecognised => s := Fail(context.call, SentAs(LocallyRejected, PossiblySent), stamp);
    }

    /** Releases the context of an outcome and ends its call; `session` asks for session work. */
    method SettleReleased(o: EngineOutcome, recoveryReason: Option<CloseReason>)
      returns (found: bool, ok: bool, session: bool)
      requires Core() && Classified(o) && (SaysNotSent(o) ==> o.key in engine.notSent)
      modifies this`settled, contexts, causality
      ensures Core() && old(settled) <= settled && |settled| <= |old(settled)| + 1
      ensures found <==> o.key in old(contexts.published)
      ensures !found ==> settled == old(settled) && ok
      ensures found && old(contexts.Contents())[o.key].Public? ==>
        |settled| == |old(settled)| + 1 && settled[|old(settled)|].call == old(contexts.Contents())[o.key].call
      ensures contexts.published == old(contexts.published) - {o.key}
      ensures ok <==> StampedFrom(|old(settled)|, settled)
      ensures OutcomeEnds(old(contexts.Contents()), o, KnownReason(recoveryReason), old(settled), settled)
      ensures ok ==> (session <==> found && (old(contexts.Contents())[o.key].Session? || Unusable(o)))
    {
      hide ContextState.Valid, PendingRequests.Valid, Balanced, CallsOf, ContextsOf, StampedFrom, Tells;
      var context;
      ghost var b;
      context, b := Unpublish(o.key);
      found, ok, session := context.Some?, true, false;
      StampedOne(settled, Fail(0, Decode, None));
      if context.Some? {
        if context.value.Session? {
          session := true;
        } else {
          PublishedBound(b, o.key);
          var s;
          s, ok, session := JudgeOutcome(context.value, o, recoveryReason);
          StampedOne(settled, s);
          Record(o.key, s, b);
        }
      }
    }

    /** `settle_outcome` of a live session: an outcome nobody waits for abandons the generation. */
    method SettleOutcome(o: EngineOutcome) returns (ok: bool)
      requires Valid() && Classified(o) && (SaysNotSent(o) ==> o.key in engine.notSent)
      modifies this, engine, contexts, pending, pending.requests, causality
      ensures Valid() && NothingForgotten() && OutcomeSettled(old(Look()), Look(), o, ok)
    {
      hide ContextState.Valid, PendingRequests.Valid, Balanced, CallsOf, Vouched, ContextsOf, StampedFrom,
        Tells, SessionRan, GivenUp, OutcomeEnds, Unusable;
      ghost var published, a := contexts.Contents(), Look();
      ContentsWithout(contexts.published, o.key);
      ContentsAt(contexts.published, o.key);
      PublicShrinks(published, o.key);
      var found, settledOk, session := SettleReleased(o, None);
      assert Valid();
      ghost var told := settled;
      if !found {
        assert published - {o.key} == published;
        if connection.None? {
          return false;
        }
        ok := Recover(true, true);
        return;
      }
      if !settledOk {
        ok := false;
      } else if session {
        ok := SessionInput();
      } else {
        ok := true;
      }
      assert OutcomeSettledVia(a, Look(), o, told, ok);
    }

    // ---------------------------------------------------------------- lifecycle

    /** `generation_ended` of the broker machine: refused outside a live phase; it never reopens by itself. */
    method EndGeneration(reason: CloseReason) returns (ok: bool)
      requires Core() && OneGeneration() && connection.None? && pendingRecovery.None? && contexts.published == map[]
      modifies this`phase, engine`record
      ensures Core() && OneGeneration()
      ensures One(old(engine.record).policies, engine.record.policies)
      ensures engine.record == old(engine.record).(policies := engine.record.policies)
      ensures var p := Last(engine.record.policies);
        && (ok <==> GenerationEnds(old(phase), reason, p))
        && phase == if ok then AfterGeneration(old(phase), reason, p) else old(phase)
    {
      hide ContextState.Valid, PendingRequests.Valid, Balanced, CallsOf, ContextsOf, Core, Line, Vouched;
      var policy := engine.Decide();
      if !LivePhase(phase) || !policy.accepted {
        return false;
      }
      ok := true;
      if phase.DrainingPhase? || reason.Drained? || reason.Requested? {
        phase := PhaseClosed(ByRequest);
      } else if reason == AuthenticationFailed(true) {
        if phase.Available? {
          return false;
        }
        phase := PhaseClosed(ByRejection);
      } else {
        phase := if policy.gaveUp then PhaseClosed(GaveUp) else if policy.exhausted then Refreshing else Backoff;
      }
    }

    /** A closed broker policy ends the lane: the calls still queued were never sent. */
    method SettlePolicyClose(preceding: CloseReason) returns (ok: bool)
      requires Core() && OneGeneration() && contexts.published == map[]
      requires terminal ==> pending.Items() == []
      modifies this`terminal, this`settled, pending, pending.requests, causality
      ensures Valid() && old(settled) <= settled
      ensures !phase.PhaseClosed? ==> ok && Look() == old(Look())
      ensures phase.PhaseClosed? ==>
        && (ok <==> StampedFrom(|old(settled)|, settled))
        && Look() == old(Look()).(terminal := true, settled := settled, queue := Look().queue)
        && ClosedAs(old(Look()), Look(), phase, preceding)
    {
      hide ContextState.Valid, PendingRequests.Valid, Balanced, CallsOf, Vouched, StampedFrom, Told, AllEnd, FailedSince;
      ok := true;
      if phase.PhaseClosed? {
        terminal := true;
        ok := FailPending(TerminalFailure(phase.why, preceding), true);
        PrefixSince(old(settled), settled, TerminalFailure(phase.why, preceding));
      }
      assert contexts.Contents() == map[];
    }

    /**
     * The broker policy decides after a generation: to wait for the next one with everything queued as it was, or to
     * close with every queued call told why. What it refuses, and an effect that fails, ends the lane.
     */
    method SettleGenerationLifecycle(reason: CloseReason) returns (ok: bool)
      requires Valid() && connection.None? && pendingRecovery.None?
      modifies this`phase, this`admissionOpen, this`terminal, this`settled, contexts, pending, pending.requests, causality,
               engine`record
      ensures Valid() && contexts.published == map[] && Resumed(old(Look()), Look(), reason, ok)
    {
      hide ContextState.Valid, PendingRequests.Valid, Balanced, CallsOf, Vouched, ContextsOf, AfterGeneration,
        GenerationEnds, Told, AllEnd, StampedFrom, Resumed, ClosedAs, HostFailed;
      NothingHeld();
      ghost var a := Look();
      ok := EndGeneration(reason);
      ghost var ended, refused := Look(), !ok;
      if ok && Last(engine.record.policies).interpreted {
        ok := SettlePolicyClose(reason);
      } else {
        ok := false;
      }
      ghost var closed := Look();
      if !ok {
        HostFatal();
      }
      ResumedBy(a, ended, closed, Look(), reason, refused, ok);
    }

    /** `open_generation`: refused while a connection is not retired or the ledger holds anything. */
    method OpenGeneration() returns (opening: Opening)
      requires Valid() && phase.Connecting?
      modifies this`connection, this`generationClose, this`lastClose, this`admissionOpen, this`pendingRecovery,
               this`terminal, this`sessionReady, engine`record
      ensures Core() && OneGeneration()
      ensures opening.OwnershipInvalid? <==>
        old(connection).Some? || contexts.reserved != 0 || contexts.published != map[] || contexts.retained != 0 || contexts.poisoned
      ensures opening.Opened? ==> Valid()
      ensures !opening.OwnershipInvalid? ==> OpenAttempted(old(Look()), Look(), opening)
    {
      hide ContextState.Valid, PendingRequests.Valid, Balanced, CallsOf, ContextsOf, Vouched, Line, BooksWith;
      if connection.Some? {
        return OwnershipInvalid;
      }
      if contexts.reserved != 0 || contexts.published != map[] || contexts.retained != 0 || contexts.poisoned {
        return OwnershipInvalid;
      }
      opening := Connect();
    }

    method Connect() returns (opening: Opening)
      requires Core() && OneGeneration() && phase.Connecting? && connection.None? && contexts.published == map[]
      modifies this`connection, this`generationClose, this`lastClose, this`admissionOpen, this`pendingRecovery,
               this`terminal, this`sessionReady, engine`record
      ensures Core() && OneGeneration() && !opening.OwnershipInvalid?
      ensures opening.Opened? ==> Valid()
      ensures OpenAttempted(old(Look()), Look(), opening)
    {
      hide ContextState.Valid, PendingRequests.Valid, Balanced, CallsOf, ContextsOf, Vouched, Line, Core, Valid, OpenAttempted;
      ghost var a := Look();
      var answer := engine.Connect();
      match answer {
        case Connected(epoch) =>
          Install(epoch);
          opening := Opened(epoch);
        case EndpointRefused(reason) =>
          lastClose := Some(reason);
          opening := EndpointFailed(reason);
        case ConnectFatal => opening := OpenFatal;
      }
      OpenAttemptedBy(a, Look(), answer, opening);
    }

    method Install(epoch: nat)
      requires Core() && phase.Connecting? && contexts.published == map[]
      modifies this`connection, this`generationClose, this`admissionOpen, this`pendingRecovery, this`terminal, this`sessionReady
      ensures Valid()
      ensures Look() == old(Look()).(connection := Some(epoch), ready := false, open := false, terminal := false,
                                     recovery := None, close := None)
    {
      hide ContextState.Valid, PendingRequests.Valid, Balanced, CallsOf, ContextsOf, Vouched, Line, BooksWith;
      NothingPublished(contexts.published);
      connection, sessionReady, generationClose := Some(epoch), false, None;
      admissionOpen, pendingRecovery, terminal := false, None, false;
    }

    /** Whenever a new generation may be opened nothing of the last one is left. */
    lemma CleanRestart()
      requires Valid() && connection.None? && pendingRecovery.None?
      ensures contexts.reserved == 0 && contexts.published == map[] && contexts.retained == 0 && !contexts.poisoned
    {
      EmptyLedger(contexts.published, contexts.reserved, contexts.retained, contexts.places);
    }

    /**
     * Opens the next generation; a failed endpoint ends it again at once. The ownership error of
     * `open_generation` is a dead branch here.
     */
    method OpenOrEnd() returns (ok: bool)
      requires Valid() && phase.Connecting? && connection.None? && pendingRecovery.None?
      modifies this, contexts, pending, pending.requests, causality, engine`record
      ensures Valid() && contexts.published == map[] && OpenedOrEnded(old(Look()), Look(), ok)
      ensures given == old(given) && old(settled) <= settled
    {
      hide ContextState.Valid, PendingRequests.Valid, Balanced, CallsOf, Vouched, ContextsOf, AfterGeneration, Told, AllEnd,
        StampedFrom, OpenAttempted, OpenedOrEnded, HostFailed, ClosedAs, GenerationEnds;
      CleanRestart();
      NothingHeld();
      ghost var a := Look();
      var opening := OpenGeneration();
      ghost var mid := Look();
      match opening {
        case OwnershipInvalid =>
          assert false;
        case Opened(epoch) =>
          ok := true;
          OpenedBy(a, mid, opening);
        case OpenFatal =>
          HostFatal();
          ok := false;
          OpenFailedBy(a, mid, Look(), opening);
        case EndpointFailed(reason) =>
          AttemptFailed(a, mid, opening);
          ok := EndAttempt(a, reason);
      }
      OpenedAsks(a, Look(), ok);
    }

    /** A failed endpoint ends the generation at once. */
    method EndAttempt(ghost a: Face, reason: CloseReason) returns (ok: bool)
      requires Core() && OneGeneration() && connection.None? && pendingRecovery.None? && contexts.published == map[]
      requires terminal ==> pending.Items() == []
      requires OpenAttempted(a, Look(), EndpointFailed(reason)) && a.phase.Connecting? && a.contents == map[]
      modifies this`phase, this`admissionOpen, this`terminal, this`settled, contexts, pending, pending.requests, causality,
               engine`record
      ensures Valid() && contexts.published == map[] && OpenedOrEnded(a, Look(), ok)
    {
      hide ContextState.Valid, PendingRequests.Valid, Balanced, CallsOf, Vouched, ContextsOf, AfterGeneration, Told, AllEnd,
        StampedFrom, OpenAttempted, OpenedOrEnded, HostFailed, ClosedAs, GenerationEnds, Line, BooksWith;
      ghost var mid := Look();
      ok := EndGeneration(reason);
      ghost var ended, refused := Look(), !ok;
      if ok {
        ok := SettlePolicyClose(reason);
      }
      ghost var closed := Look();
      if !ok {
        HostFatal();
      }
      EndedBy(a, mid, ended, closed, Look(), reason, refused, ok);
    }

    /** `fire_due_reconnect`, and a completed endpoint refresh: a new generation exactly when its time has come. */
    method Reconnect() returns (ok: bool)
      requires Valid()
      modifies this, contexts, pending, pending.requests, causality, engine`record
      ensures Valid() && Reconnected(old(Look()), Look(), ok)
    {
      hide ContextState.Valid, PendingRequests.Valid, Balanced, CallsOf, Vouched, ContextsOf, OpenedOrEnded, HostFailed,
        Reconnected, Line, BooksWith;
      ghost var a := Look();
      var timer := engine.ReadTimer();
      ghost var asked := Look();
      if !timer.due || !(phase.Backoff? || phase.Refreshing?) {
        ok := true;
      } else if timer.rejected {
        HostFatal();
        ok := false;
      } else {
        phase := Connecting;
        ok := OpenOrEnd();
      }
      ReconnectedBy(a, asked, Look(), timer, ok);
    }

    // ---------------------------------------------------------------- recovery

    /** The outcomes of a report, each ending the call of its key. */
    method SettleReported(outcomes: seq<EngineOutcome>, reason: CloseReason) returns (allFound: bool, ok: bool)
      requires Core() && OutcomesVouched(outcomes, engine.notSent)
      modifies this`settled, contexts, causality
      ensures Core() && old(settled) <= settled
      ensures contexts.published == old(contexts.published) - KeySet(OutcomeNames(outcomes))
      ensures allFound <==> FoundIn(OutcomeNames(outcomes), old(contexts.published).Keys)
      ensures ok <==> StampedFrom(|old(settled)|, settled)
      ensures OutcomesEnd(old(contexts.Contents()), outcomes, Some(reason), old(settled), settled)
    {
      hide ContextState.Valid, PendingRequests.Valid, Balanced, Parts, FoundIn, KeySet, StampedFrom, OutcomeNames,
        Classified, SaysNotSent, OutcomesEnd, OutcomeEnds, ContextsOf;
      allFound, ok := true, true;
      ghost var published := contexts.published;
      ReportedNone(outcomes, published);
      NoOutcomesEnd(ContextsOf(published), Some(reason), settled);
      StampedOne(settled, Fail(0, Decode, None));
      for i := 0 to |outcomes|
        invariant Core() && old(settled) <= settled
        invariant contexts.published == published - KeySet(OutcomeNames(outcomes[..i]))
        invariant allFound <==> FoundIn(OutcomeNames(outcomes[..i]), published.Keys)
        invariant ok <==> StampedFrom(|old(settled)|, settled)
        invariant OutcomesEnd(ContextsOf(published), outcomes[..i], Some(reason), old(settled), settled)
      {
        ghost var before := settled;
        ContentsWithoutAll(published, KeySet(OutcomeNames(outcomes[..i])));
        OutcomeNamesNext(outcomes, i);
        FoundNext(OutcomeNames(outcomes[..i]), outcomes[i].key, published.Keys);
        var found, settledOk, session := SettleReleased(outcomes[i], Some(reason));
        StampedMore(|old(settled)|, before, settled);
        OutcomesEndNext(ContextsOf(published), outcomes, i, Some(reason), old(settled), before, settled);
        allFound, ok := allFound && found, ok && settledOk;
      }
      assert outcomes[..|outcomes|] == outcomes;
    }

    /**
     * `settle_recovered_owners`: outcomes, recovered operations, discarded writes, then whatever is left. It has
     * diverged unless the report names every context once and nothing else, and every completion was stamped.
     */
    method SettleRecoveredOwners(report: Report, reason: CloseReason)
      returns (ok: bool, diverged: bool, ghost reported: seq<Settlement>, ghost named: seq<Settlement>)
      requires Core() && Vouched(report, engine.notSent)
      modifies this`settled, contexts, causality
      ensures Core() && contexts.published == map[] && old(settled) <= settled
      ensures OwnersTold(old(contexts.Contents()), report, reason, old(settled), reported, named, settled)
      ensures ok <==> StampedFrom(|old(settled)|, settled)
      ensures diverged <==> !ok || !NamesExactly(ReportNames(report), old(contexts.published).Keys)
    {
      hide ContextState.Valid, PendingRequests.Valid, Balanced, Parts, FoundIn, KeySet, StampedFrom, NamedBy,
        OutcomeNames, EntriesTold, Told, FailedSince, ContextsOf, OutcomesVouched, EntriesVouched, NamesExactly,
        OutcomesEnd;
      ghost var present, n := contexts.published, |settled|;
      var found0, ok0 := SettleReported(report.outcomes, reason);
      reported := settled;
      ContentsWithoutAll(present, KeySet(OutcomeNames(report.outcomes)));
      ghost var left := contexts.published;
      var found1, ok1 := FailEntries(report.epoch, report.operations, reason, true);
      StampedMore(n, reported, settled);
      ContentsWithoutAll(left, KeySet(NamedBy(report.epoch, report.operations)));
      ghost var discarding := settled;
      var found2, ok2 := FailEntries(report.epoch, report.unmatchedWrites, reason, true);
      StampedMore(n, discarding, settled);
      named := settled;
      var released, ok3 := FailRemaining(Recovery(reason, PossiblySent), true);
      PrefixSince(named, settled, Recovery(reason, PossiblySent));
      StampedMore(n, named, settled);
      NamesInParts(OutcomeNames(report.outcomes), NamedBy(report.epoch, report.operations),
                   NamedBy(report.epoch, report.unmatchedWrites), present.Keys);
      ok := ok0 && ok1 && ok2 && ok3;
      diverged := !ok || !found0 || !found1 || !found2 || released != 0;
    }

    /**
     * `settle_recovery`: everything the report names ends, and only a clean, reusable owner goes on: then, and only
     * then, the broker policy decides what follows.
     */
    method SettleRecovery(recovery: PendingRecovery) returns (ok: bool)
      requires Core() && OneGeneration() && LivePhase(phase) && connection.None? && pendingRecovery.None?
      requires Vouched(recovery.report, engine.notSent)
      requires terminal ==> pending.Items() == []
      modifies this`phase, this`admissionOpen, this`sessionReady, this`generationClose, this`lastClose, this`terminal,
               this`settled, contexts, pending, pending.requests, causality, engine`record
      ensures Valid() && contexts.published == map[]
      ensures RecoverySettled(old(Look()), Look(), recovery, ok)
    {
      hide ContextState.Valid, PendingRequests.Valid, Balanced, Vouched, Parts, StampedFrom, OwnersTold, ContextsOf, Line,
        RecoveryDecided, RecoverySettled, Valid, Core, NothingStranded, Clean, Lost;
      ghost var a := Look();
      var usable;
      ghost var reported, named, owners;
      usable, reported, named, owners := TellOwners(recovery);
      ghost var left := Look();
      ok := EndRecovered(lastClose.value, usable);
      RecoveredBy(a, left, Look(), recovery, reported, named, owners, usable, ok);
    }

    /** The callers of a lost generation are told, and its session ends; `usable` when a next one may follow. */
    method TellOwners(recovery: PendingRecovery)
      returns (usable: bool, ghost reported: seq<Settlement>, ghost named: seq<Settlement>, ghost owners: seq<Settlement>)
      requires Core() && OneGeneration() && LivePhase(phase) && connection.None? && pendingRecovery.None?
      requires Vouched(recovery.report, engine.notSent)
      requires terminal ==> pending.Items() == []
      modifies this`phase, this`admissionOpen, this`sessionReady, this`generationClose, this`lastClose, this`settled,
               contexts, causality, engine`record
      ensures Valid() && One(old(engine.record).sessionEnds, engine.record.sessionEnds)
      ensures Look() == Lost(old(Look()), recovery, engine.record.sessionEnds, owners)
      ensures lastClose == Some(FirstKnown(old(generationClose), recovery.report.reason))
      ensures OwnersTold(old(contexts.Contents()), recovery.report, lastClose.value, old(settled), reported, named, owners)
      ensures usable <==>
        && Clean(recovery, old(contexts.Contents()).Keys) && Last(engine.record.sessionEnds).accepted
        && StampedFrom(|old(settled)|, owners)
    {
      hide ContextState.Valid, PendingRequests.Valid, Balanced, CallsOf, Vouched, BooksWith, PublicCalls, Parts,
        NamesExactly, StampedFrom, OwnersTold, ContextsOf, ReportNames, Line, AdmittedPhase, Core;
      KeysOfContents(contexts.published);
      AdmittedLive(phase, recovery);
      phase := AdmittedPhase(phase, recovery);
      var reason := EffectiveReason(None, recovery.report.reason);
      lastClose := Some(reason);
      var settledOk, lost;
      settledOk, lost, reported, named := SettleRecoveredOwners(recovery.report, reason);
      owners := settled;
      NothingPublished(contexts.published);
      NothingHeld();
      var sessionOk := CloseGeneration(reason);
      usable := settledOk && recovery.report.reusable && sessionOk && !recovery.diverged && !lost;
    }

    method CloseGeneration(reason: CloseReason) returns (accepted: bool)
      modifies this`admissionOpen, this`sessionReady, this`generationClose, this`lastClose, engine`record
      ensures One(old(engine.record).sessionEnds, engine.record.sessionEnds)
      ensures accepted == Last(engine.record.sessionEnds).accepted
      ensures Look() == old(Look()).(open := false, ready := false, close := None, last := Some(reason),
                                     record := old(engine.record).(sessionEnds := engine.record.sessionEnds))
    {
      hide Line, ContextsOf, PendingRequests.Valid;
      admissionOpen := false;
      accepted := SessionClosed();
      generationClose, lastClose := None, Some(reason);
    }

    method EndRecovered(reason: CloseReason, reusable: bool) returns (ok: bool)
      requires Valid() && connection.None? && pendingRecovery.None?
      modifies this`phase, this`admissionOpen, this`terminal, this`settled, contexts, pending, pending.requests, causality,
               engine`record
      ensures Valid() && contexts.published == map[]
      ensures RecoveryDecided(old(Look()), Look(), reason, reusable, ok)
    {
      hide ContextState.Valid, PendingRequests.Valid, Balanced, CallsOf, Vouched, Told, AllEnd, StampedFrom,
        GenerationEnds, AfterGeneration, ContextsOf;
      NothingHeld();
      if reusable {
        ok := SettleGenerationLifecycle(reason);
        if ok {
          return;
        }
      }
      var failed := FailPending(Recovery(reason, NotSent), true);
      NothingPublished(contexts.published);
      terminal := true;
      ok := false;
    }

    method SettlePendingRecovery() returns (ok: bool)
      requires Valid()
      modifies this, contexts, pending, pending.requests, causality, engine`record
      ensures Valid() && CaptureSettled(old(Look()), Look(), ok)
      ensures old(pendingRecovery).None? ==> ok && unchanged(this, contexts, pending, pending.requests, causality, engine)
      ensures old(pendingRecovery).Some? ==> contexts.published == map[]
    {
      hide ContextState.Valid, PendingRequests.Valid, Balanced, CallsOf, Vouched, RecoverySettled, ContextsOf;
      ok := true;
      if pendingRecovery.Some? {
        var recovery := pendingRecovery.value;
        pendingRecovery := None;
        ok := SettleRecovery(recovery);
      }
    }

    // ---------------------------------------------------------------- events and turns

    /** `session_drained_by_engine`: a draining session records the close; an unexpected effect is an error. */
    method DrainedByEngine() returns (ok: bool)
      modifies this`generationClose, engine`record
      ensures DrainNoted(old(Look()), Look(), ok)
    {
      var drain := engine.DrainSession();
      if drain.draining {
        generationClose := Some(Drained);
      }
      ok := drain.expected;
    }

    /**
     * The `Closed` event: every context ends, the connection retires and the broker policy decides. Success means
     * that the engine had accounted for every context before.
     */
    method SettleClosed(reason: EngineClose, diagnostic: Option<TransportFailure>) returns (ok: bool)
      requires Valid() && connection.Some?
      modifies this`connection, this`phase, this`sessionReady, this`admissionOpen, this`terminal, this`generationClose,
               this`lastClose, this`settled, contexts, pending, pending.requests, causality, engine`record
      ensures Valid() && ConnectionClosedBy(old(Look()), Look(), reason, diagnostic, ok)
    {
      hide ContextState.Valid, PendingRequests.Valid, Balanced, CallsOf, Vouched, BooksWith, Parts, PublicCalls,
        Core, OneGeneration, NothingStranded, SessionLost, DrainNoted, ContextsOf;
      admissionOpen := false;
      ghost var shut := Look();
      if reason.CloseDrained? {
        var expected := DrainedByEngine();
        ghost var noted := Look();
        assert DrainNoted(shut, noted, expected);
        if !expected {
          return false;
        }
        ok := LoseSession(ConnectionCloseReason(reason, diagnostic));
      } else {
        ok := LoseSession(ConnectionCloseReason(reason, diagnostic));
      }
    }

    /** The session hears of the end of its connection; the reason it recorded counts before any other. */
    method LoseSession(otherwise: CloseReason) returns (ok: bool)
      requires Valid() && connection.Some?
      modifies this`connection, this`phase, this`sessionReady, this`admissionOpen, this`terminal, this`generationClose,
               this`lastClose, this`settled, contexts, pending, pending.requests, causality, engine`record
      ensures Valid() && SessionLost(old(Look()), Look(), otherwise, ok)
    {
      hide ContextState.Valid, PendingRequests.Valid, Balanced, Vouched, Parts, Core, OneGeneration, NothingStranded,
        ContextsLost, SessionLost, ContextsOf, Line;
      ghost var a := Look();
      var accepted := SessionClosed();
      ghost var told := Look();
      ok := false;
      if accepted {
        var effective := EffectiveReason(None, otherwise);
        generationClose, lastClose := None, Some(effective);
        ok := EndContexts(effective);
      }
      SessionLostBy(a, told, Look(), otherwise, ok);
    }

    method EndContexts(effective: CloseReason) returns (ok: bool)
      requires Valid() && connection.Some?
      modifies this`connection, this`phase, this`sessionReady, this`admissionOpen, this`terminal, this`generationClose,
               this`lastClose, this`settled, contexts, pending, pending.requests, causality, engine`record
      ensures Valid() && contexts.published == map[] && ContextsLost(old(Look()), Look(), effective, ok)
    {
      hide ContextState.Valid, PendingRequests.Valid, Balanced, CallsOf, Vouched, BooksWith, Parts, PublicCalls,
        StampedFrom, Retired, ContextsOf, FailedSince, ContextsLost, Line;
      ghost var a := Look();
      KeysOfContents(contexts.published);
      var released, observed := FailRemaining(Recovery(effective, PossiblySent), true);
      ghost var owners := settled;
      NothingPublished(contexts.published);
      NothingHeld();
      if !observed {
        UnstampedLost(a, Look(), effective, owners);
        return false;
      }
      var answer := engine.Touch();
      ghost var asked := Look();
      ok := Retire(answer, effective, released != 0);
      ContextsLostBy(a, asked, Look(), effective, owners, answer, ok);
    }

    /**
     * What the engine answers to retirement: a stale connection ends the lane, another error leaves it as it was, and
     * contexts that closing had to end, `diverged`, end it too.
     */
    method Retire(answer: Access, effective: CloseReason, diverged: bool) returns (ok: bool)
      requires Valid() && connection.Some? && contexts.published == map[]
      modifies this`connection, this`phase, this`sessionReady, this`admissionOpen, this`terminal, this`generationClose,
               this`lastClose, this`settled, contexts, pending, pending.requests, causality, engine`record
      ensures Valid() && contexts.published == map[]
      ensures Retired(old(Look()), Look(), answer, effective, diverged, ok)
    {
      hide ContextState.Valid, PendingRequests.Valid, Balanced, CallsOf, Vouched, BooksWith, StampedFrom, Told, AllEnd,
        Resumed, Over, ContextsOf, FailedSince;
      if answer.AccessStale? {
        generationClose := Some(effective);
        GenerationInvariantFatal(true);
        return false;
      }
      if !answer.Fine? {
        return false;
      }
      connection := None;
      if diverged {
        ok := false;
        RetireDiverged(effective);
      } else {
        ok := SettleGenerationLifecycle(effective);
      }
    }

    /** Contexts were left when the connection retired: the queued calls end, and the lane with them if all was stamped. */
    method RetireDiverged(effective: CloseReason)
      requires Valid() && connection.None? && contexts.published == map[]
      modifies this`terminal, this`settled, pending, pending.requests, causality
      ensures Valid() && old(settled) <= settled && QueueEnded(old(Look()), Look(), Recovery(effective, NotSent))
      ensures Look() == old(Look()).(settled := settled, queue := Look().queue,
                                     terminal := old(terminal) || StampedFrom(|old(settled)|, settled))
    {
      hide ContextState.Valid, PendingRequests.Valid, Balanced, CallsOf, Vouched, BooksWith, StampedFrom, Told, AllEnd,
        ContextsOf, FailedSince;
      var observed := FailPending(Recovery(effective, NotSent), true);
      PrefixSince(old(settled), settled, Recovery(effective, NotSent));
      NothingPublished(contexts.published);
      terminal := terminal || observed;
    }

    method SettleEvent(event: EngineEvent) returns (ok: bool)
      requires Valid()
      modifies this, engine, contexts, pending, pending.requests, causality
      ensures Valid() && NothingForgotten() && EventSettled(old(Look()), Look(), event, ok)
    {
      hide ContextState.Valid, PendingRequests.Valid, Balanced, CallsOf, Vouched, BooksWith, SessionRan,
        ConnectionClosedBy, DrainNoted, ContextsOf;
      if connection.None? {
        return false;
      }
      match event
      case TransportOpened => ok := SessionInput();
      case AdmissionOpened =>
        ok := !phase.Connecting?;
        if !ok {
          ok := BecomeReady();
        }
        admissionOpen := phase.Available?;
      case Closing(reason) =>
        admissionOpen, ok := false, true;
        if reason.CloseDrained? {
          ok := DrainedByEngine();
        }
      case ClosedEvent(reason, diagnostic) => ok := SettleClosed(reason, diagnostic);
      case OtherEpoch => ok := true;
    }

    /** Outcomes drained before a recovery was captured go in front of those it reports. */
    method Prepend(outcomes: seq<EngineOutcome>)
      requires Valid() && pendingRecovery.Some? && OutcomesVouched(outcomes, engine.notSent)
      modifies this`pendingRecovery
      ensures Valid() && Look() == old(Look()).(recovery := Some(Prepended(old(pendingRecovery).value, outcomes)))
    {
      hide ContextState.Valid, PendingRequests.Valid, Balanced, CallsOf, BooksWith, PublicCalls, ContextsOf;
      var recovery := pendingRecovery.value;
      pendingRecovery := Some(recovery.(report := recovery.report.(outcomes := outcomes + recovery.report.outcomes)));
    }

    /** A drive step failed: nothing drained is lost, and what can no longer be recovered is fatal. */
    method TotalizeDriveFailure(epoch: nat, outcomes: seq<EngineOutcome>)
      requires Valid() && OutcomesVouched(outcomes, engine.notSent)
      modifies this, engine, contexts, pending, pending.requests, causality
      ensures Valid() && NothingForgotten() && DriveFailed(old(Look()), Look(), epoch, outcomes)
    {
      hide ContextState.Valid, PendingRequests.Valid, Balanced, CallsOf, Vouched, Core, NothingStranded,
        RecoverySettled, GivenUp, ContextsOf, OutcomesVouched;
      ghost var a, noted := Look(), engine.notSent;
      if pendingRecovery.None? && connection == Some(epoch) {
        var recovered := Recover(true, true);
        ghost var mid := Look();
        assert GivenUp(a, mid, true, recovered);
        if recovered {
          StillVouched(outcomes, noted, engine.notSent);
          SettleDiverged(outcomes);
        }
      } else if pendingRecovery.None? {
        HostFatal();
      } else {
        SettleDiverged(outcomes);
      }
    }

    method SettleDiverged(outcomes: seq<EngineOutcome>)
      requires Valid() && OutcomesVouched(outcomes, engine.notSent) && pendingRecovery.Some?
      modifies this, engine, contexts, pending, pending.requests, causality
      ensures Valid() && NothingForgotten() && SettledDiverged(old(Look()), Look(), outcomes)
    {
      hide ContextState.Valid, PendingRequests.Valid, Balanced, CallsOf, Vouched, Core, NothingStranded,
        RecoverySettled, ContextsOf, OutcomesVouched;
      Prepend(outcomes);
      DivergeRecovery();
      ghost var a := Look();
      var ok := SettlePendingRecovery();
      DivergedNotOk(a.(recovery := None), Look(), a.recovery.value, ok);
    }

    method DivergeRecovery()
      requires Valid() && pendingRecovery.Some?
      modifies this`pendingRecovery
      ensures Valid() && Look() == old(Look()).(recovery := Some(old(pendingRecovery).value.(diverged := true)))
    {
      hide ContextState.Valid, PendingRequests.Valid, Balanced, CallsOf, BooksWith, PublicCalls, ContextsOf;
      pendingRecovery := Some(pendingRecovery.value.(diverged := true));
    }

    method DrainFailure(stale: bool) returns (ok: bool)
      requires Valid() && connection.Some?
      modifies this, engine, contexts, pending, pending.requests, causality
      ensures Valid() && NothingForgotten() && DrainFailedAs(old(Look()), Look(), stale, ok)
      ensures ok ==> pendingRecovery.Some?
    {
      hide ContextState.Valid, PendingRequests.Valid, Balanced, CallsOf, Vouched, Core, NothingStranded, Over,
        GivenUp, ContextsOf;
      if stale {
        GenerationInvariantFatal(true);
        ok := false;
      } else {
        ok := Recover(true, false);
      }
    }

    /** Settles outcomes in order; `taken` of them before a recovery took over the rest. */
    method SettleOutcomes(epoch: nat, outcomes: seq<EngineOutcome>) returns (ok: bool, ghost taken: nat)
      requires Valid() && OutcomesVouched(outcomes, engine.notSent) && pendingRecovery.None?
      modifies this, engine, contexts, pending, pending.requests, causality
      ensures Valid() && NothingForgotten() && OutcomesSettled(old(Look()), Look(), epoch, outcomes, taken, ok)
    {
      hide ContextState.Valid, PendingRequests.Valid, Balanced, Vouched, Valid, Classified, SaysNotSent, ContextsOf,
        OutcomeSettled, DriveFailed, OutcomesRan, OutcomesVouched;
      ok, taken := true, 0;
      ghost var a := Look();
      NothingRan(a, outcomes);
      for i := 0 to |outcomes|
        invariant Valid() && NothingForgotten() && OutcomesVouched(outcomes, engine.notSent) && taken == i
        invariant OutcomesRan(a, Look(), outcomes[..i]) && pendingRecovery.None?
      {
        ghost var last, noted := Look(), engine.notSent;
        VouchedAt(outcomes, i, noted);
        ok := SettleOutcome(outcomes[i]);
        taken := i + 1;
        StillVouched(outcomes, noted, engine.notSent);
        RestVouched(outcomes, i + 1, engine.notSent);
        ghost var mid := Look();
        if !ok {
          TotalizeDriveFailure(epoch, outcomes[i + 1..]);
          assert OutcomesSettledVia(a, Look(), epoch, outcomes, taken, mid, false);
          return;
        }
        RanNext(a, last, mid, outcomes, i);
        if pendingRecovery.Some? {
          Prepend(outcomes[i + 1..]);
          assert OutcomesSettledVia(a, Look(), epoch, outcomes, taken, mid, true);
          return;
        }
      }
      assert OutcomesSettledVia(a, Look(), epoch, outcomes, taken, Look(), true);
    }

    method SettleEvents(epoch: nat, events: seq<EngineEvent>) returns (ok: bool)
      requires Valid() && pendingRecovery.None?
      modifies this, engine, contexts, pending, pending.requests, causality
      ensures Valid() && NothingForgotten() && EventsSettled(old(Look()), Look(), epoch, events, ok)
    {
      hide ContextState.Valid, PendingRequests.Valid, Balanced, Vouched, Valid, EventSettled, DriveFailed, EventsRan,
        ContextsOf;
      ok := true;
      ghost var a := Look();
      NoEventsRan(a, events);
      for i := 0 to |events|
        invariant Valid() && NothingForgotten() && EventsRan(a, Look(), events[..i]) && pendingRecovery.None?
      {
        ghost var last := Look();
        ok := SettleEvent(events[i]);
        ghost var mid := Look();
        if !ok {
          TotalizeDriveFailure(epoch, []);
          assert EventsSettledVia(a, Look(), epoch, events, i + 1, mid, false);
          return;
        }
        EventsRanNext(a, last, mid, events, i);
        if pendingRecovery.Some? {
          assert EventsSettledVia(a, mid, epoch, events, i + 1, mid, true);
          return;
        }
      }
      assert EventsSettledVia(a, Look(), epoch, events, |events|, Look(), true);
    }

    /**
     * `drain_engine`: outcomes first, then events; a recovery on the way takes over the outcomes not yet `taken`, in
     * front of its own. A context whose outcome was taken is gone for good, its call was told what the outcome says,
     * and an error is the end of the lane.
     */
    method DrainEngine() returns (ok: bool, ghost taken: nat)
      requires Valid() && connection.Some?
      modifies this, engine, contexts, pending, pending.requests, causality
      ensures Valid() && NothingForgotten() && EngineDrained(old(Look()), Look(), taken, ok)
    {
      hide ContextState.Valid, PendingRequests.Valid, Balanced, Vouched, Valid, OutcomesVouched, ContextsOf, DrainFailedAs,
        BatchesSettled, EventsUndrained;
      taken := 0;
      var outcomes := engine.DrainOutcomes();
      LearnMore();
      ghost var asked := Look();
      if !outcomes.Batch? {
        ok := DrainFailure(outcomes.DrainStale?);
        DrainFailedWithin(asked, Look(), outcomes.DrainStale?, ok);
        return;
      }
      var events := engine.DrainEvents();
      ghost var drained := Look();
      if !events.Batch? {
        ok := EventsFailed(outcomes.items, events.DrainStale?);
        UndrainedWithin(drained, Look(), outcomes.items, events.DrainStale?, ok);
      } else {
        ok, taken := SettleBatches(outcomes.items, events.items);
        BatchesWithin(drained, Look(), outcomes.items, events.items, taken, ok);
      }
    }

    method EventsFailed(outcomes: seq<EngineOutcome>, stale: bool) returns (ok: bool)
      requires Valid() && connection.Some? && OutcomesVouched(outcomes, engine.notSent)
      modifies this, engine, contexts, pending, pending.requests, causality
      ensures Valid() && NothingForgotten() && EventsUndrained(old(Look()), Look(), outcomes, stale, ok)
    {
      hide ContextState.Valid, PendingRequests.Valid, Balanced, Vouched, Valid, OutcomesVouched, ContextsOf, DrainFailedAs;
      ghost var a, noted := Look(), engine.notSent;
      ok := DrainFailure(stale);
      ghost var mid := Look();
      assert DrainFailedAs(a, mid, stale, ok);
      if ok {
        StillVouched(outcomes, noted, engine.notSent);
        Prepend(outcomes);
      }
    }

    method SettleBatches(outcomes: seq<EngineOutcome>, events: seq<EngineEvent>) returns (ok: bool, ghost taken: nat)
      requires Valid() && connection.Some? && OutcomesVouched(outcomes, engine.notSent)
      modifies this, engine, contexts, pending, pending.requests, causality
      ensures Valid() && NothingForgotten() && BatchesSettled(old(Look()), Look(), outcomes, events, taken, ok)
    {
      hide ContextState.Valid, PendingRequests.Valid, Balanced, Vouched, Valid, OutcomesVouched, ContextsOf, OutcomesSettled,
        EventsSettled;
      NoneCaptured();
      var epoch := connection.value;
      ghost var a := Look();
      ok, taken := SettleOutcomes(epoch, outcomes);
      ghost var mid, first := Look(), ok;
      assert OutcomesSettled(a, mid, epoch, outcomes, taken, first);
      if ok && pendingRecovery.None? {
        ok := SettleEvents(epoch, events);
      }
    }

    lemma NoneCaptured()
      requires Valid() && connection.Some?
      ensures pendingRecovery.None?
    {
    }

    // ---------------------------------------------------------------- admission

    /** As `Valid`, with the calls `inHand` taken from their last owner and not yet given to the next. */
    ghost predicate ValidWith(inHand: multiset<CallId>)
      reads this, engine`accepted, engine`notSent, contexts, pending, pending.requests, causality
    {
      true == (Parts() && Balanced(BooksWith(inHand)) && OneGeneration() && NothingStranded())
    }

    /** Completes the one call in hand. */
    method EndInHand(s: Settlement)
      requires ValidWith(multiset{s.call}) && ClaimsNotSent(s)
      modifies this`settled
      ensures Valid() && settled == old(settled) + [s]
    {
      hide ContextState.Valid, PendingRequests.Valid, Balanced, CallsOf, Vouched, ContextsOf;
      ghost var b := BooksWith(multiset{s.call});
      SettleInHand(b, s);
      settled := settled + [s];
      assert BooksWith(multiset{}) == b.(inHand := b.inHand - multiset{s.call}, settled := b.settled + [s]);
    }

    /** Rolls a reservation back and completes its call; the lane stays as it was otherwise. */
    method EndAborted(reservation: ContextReservation<Context>, s: Settlement)
      requires Holding(reservation, multiset{s.call}) && ClaimsNotSent(s)
      requires terminal || phase.PhaseClosed? ==> NoCalls()
      modifies this`settled, reservation, contexts
      ensures Valid() && settled == old(settled) + [s] && contexts.published == old(contexts.published)
    {
      hide ContextState.Valid, PendingRequests.Valid, Balanced, CallsOf, Vouched;
      ghost var b := BooksWith(multiset{s.call});
      var context := reservation.Abort();
      assert BooksWith(multiset{s.call}) == b;
      EndInHand(s);
    }

    /** `publish_public`: the accepted operation's key is new, so its context is published. */
    method PublishPublic(reservation: ContextReservation<Context>, call: CallId, key: Key, ghost b: Books)
      requires contexts.Valid() && contexts.reserved == 1 && reservation.Holds(contexts)
      requires pending.Valid() && causality.next <= U64_MAX && OneGeneration() && connection.Some?
      requires reservation.context.value.Public? && reservation.context.value.call == call
      requires reservation.context.value.correlation.Some?
      requires Balanced(b) && b.inHand == multiset{call} && key !in b.accepted
      requires BooksWith(multiset{call}) == b.(accepted := b.accepted + {key})
      requires !terminal
      modifies this`frames, reservation, contexts
      ensures Valid() && key in contexts.published
      ensures Look() == AwaitsReply(old(Look()), call, key, old(reservation.context).value.correlation.value)
      ensures contexts.published.Keys == old(contexts.published).Keys + {key}
    {
      hide ContextState.Valid, PendingRequests.Valid, Balanced, CallsOf, Vouched, ContextsOf;
      var context := reservation.context.value;
      Accept(b, call, key, context.correlation.value);
      ContentsAt(contexts.published, key);
      ContentsWith(contexts.published, key, Published(context, reservation.bytes));
      var refused := reservation.Publish(key);
      if refused.Some? {
        assert false;
      }
      frames := frames[call := key];
      assert BooksWith(multiset{}) == b.(
        inHand := b.inHand - multiset{call},
        accepted := b.accepted + {key},
        frames := b.frames[call := key],
        published := b.published[key := context]);
    }

    /** `commit_public`: what becomes of a bound call once its frame is offered to the engine. */
    method CommitPublic(reservation: ContextReservation<Context>, call: CallId) returns (ok: bool)
      requires Holding(reservation, multiset{call}) && !terminal
      requires reservation.context.value.Public? && reservation.context.value.call == call
      requires reservation.context.value.correlation.Some?
      modifies this, engine, contexts, pending, pending.requests, causality, reservation
      ensures Valid() && NothingForgotten()
      ensures Committed(old(Look()), Look(), call, old(reservation.context).value.correlation.value, ok)
    {
      hide ContextState.Valid, PendingRequests.Valid, Balanced, CallsOf, Vouched, ContextsOf, PendingRequests.Items,
        GivenUp, AwaitsReply, CommitTurnedDown, Committed, Valid, Line;
      ghost var b, a := BooksWith(multiset{call}), Look();
      var correlation := reservation.context.value.correlation.value;
      var answer := engine.Commit(connection.value, correlation);
      ghost var asked := Look();
      if answer.Accepted? || answer.AcceptedOwnerFailure? {
        var key := Key(connection.value, answer.operation);
        assert BooksWith(multiset{call}) == b.(accepted := b.accepted + {key});
        PublishPublic(reservation, call, key, b);
        ok := true;
        if answer.AcceptedOwnerFailure? {
          ok := Recover(true, false);
        }
      } else {
        assert BooksWith(multiset{call}) == b;
        ok := CommitRefused(answer, reservation, call);
      }
      CommittedBy(a, asked, Look(), call, correlation, answer, ok);
    }

    method CommitRefused(answer: CommitAnswer, reservation: ContextReservation<Context>, call: CallId) returns (ok: bool)
      requires Holding(reservation, multiset{call}) && !terminal
      requires !answer.Accepted? && !answer.AcceptedOwnerFailure?
      modifies this, engine, contexts, pending, pending.requests, causality, reservation
      ensures Valid() && NothingForgotten()
      ensures CommitTurnedDown(old(Look()), Look(), call, answer, ok)
    {
      hide ContextState.Valid, PendingRequests.Valid, Balanced, CallsOf, Vouched, ContextsOf, GivenUp, Over;
      ghost var a := Look();
      var stamp, observed := Observe(answer.CommitStale?);
      EndAborted(reservation, Fail(call, RefusedCommit(answer), stamp));
      if answer.CommitStale? {
        GenerationInvariantFatal(true);
        ok := false;
        assert Over(a.(settled := a.settled + [Fail(call, RefusedCommit(answer), stamp)]), Look());
      } else if answer.CommitOwnerFailed? {
        ok := Recover(true, false);
      } else {
        ok := true;
      }
    }

    /** Why the ledger has no place for another context. */
    ghost function LedgerRefusal(bytes: nat): Option<RequestError>
      reads contexts
    {
      if contexts.reserved + |contexts.published| >= contexts.maxContexts then Some(ResponseCapacityReached(contexts.maxContexts))
      else if contexts.retained + bytes > contexts.maxBytes then Some(NotSentAs(LocallyRejected))
      else None
    }

    /** `commit_preparation`: reserve on both ledgers, bind the correlation, then offer the frame. */
    method CommitPreparation(request: Request, encoded: bool) returns (ok: bool)
      requires ValidWith(multiset{request.call}) && connection.Some? && !terminal
      modifies this, engine, contexts, pending, pending.requests, causality
      ensures Valid() && NothingForgotten()
      ensures var full := old(LedgerRefusal(request.bytes));
        if full.Some? then JustEnded(old(Look()), Look(), request.call, full.value, ok)
        else Offered(old(Look()), Look(), request.call, encoded, ok)
    {
      hide ContextState.Valid, PendingRequests.Valid, Balanced, CallsOf, Vouched, ContextsOf, Offered;
      ghost var b := BooksWith(multiset{request.call});
      var reserved := contexts.Reserve(Public(request.call, None), request.bytes);
      assert BooksWith(multiset{request.call}) == b;
      if reserved.Refused? {
        var full := reserved.failure.CapacityReached?;
        EndInHand(Fail(request.call, if full then ResponseCapacityReached(contexts.maxContexts) else NotSentAs(LocallyRejected), None));
        return true;
      }
      ok := OfferFrame(reserved.reservation, request.call, encoded);
    }

    method OfferFrame(reservation: ContextReservation<Context>, call: CallId, encoded: bool) returns (ok: bool)
      requires Holding(reservation, multiset{call}) && !terminal && reservation.context == Some(Public(call, None))
      modifies this, engine, contexts, pending, pending.requests, causality, reservation
      ensures Valid() && NothingForgotten()
      ensures Offered(old(Look()), Look(), call, encoded, ok)
    {
      hide ContextState.Valid, PendingRequests.Valid, Balanced, CallsOf, Vouched, ContextsOf, Committed,
        PermitTurnedDown, Offered, Valid, Line;
      ghost var a := Look();
      var permit := engine.ReserveOperation();
      ghost var asked := Look();
      if !permit.Permit? {
        ok := PermitRefused(permit, reservation, call);
        OfferedBy(a, asked, Look(), call, permit, encoded, ok);
        return;
      }
      var correlation := CorrelationOf(permit.matchKey);
      if !correlation.Ok? || !encoded {
        EndAborted(reservation, Fail(call, if correlation.Ok? then Encode else IdentityConflict, None));
        ok := true;
      } else {
        ghost var b := BooksWith(multiset{call});
        var first := reservation.Bind(Bound(correlation.value));
        if !first {
          assert false;
        }
        assert BooksWith(multiset{call}) == b;
        ok := CommitPublic(reservation, call);
      }
      OfferedBy(a, asked, Look(), call, permit, encoded, ok);
    }

    method PermitRefused(permit: ReserveAnswer, reservation: ContextReservation<Context>, call: CallId) returns (ok: bool)
      requires Holding(reservation, multiset{call}) && !terminal
      requires !permit.Permit? && (permit.ReserveRefused? ==> DeliveryOf(permit.error) == NotSent)
      modifies this, engine, contexts, pending, pending.requests, causality, reservation
      ensures Valid() && NothingForgotten()
      ensures PermitTurnedDown(old(Look()), Look(), call, permit, ok)
    {
      hide ContextState.Valid, PendingRequests.Valid, Balanced, CallsOf, Vouched, ContextsOf, GivenUp, Over;
      ghost var a := Look();
      EndAborted(reservation, Fail(call, RefusedPermit(permit), None));
      if permit.ReserveStale? {
        GenerationInvariantFatal(true);
        ok := false;
        assert Over(a.(settled := a.settled + [Fail(call, RefusedPermit(permit), None)]), Look());
      } else if permit.ReservePoisoned? {
        ok := Recover(true, false);
      } else {
        ok := true;
      }
    }

    /** `admit_ready`: a call refused locally ends at once as not sent; any other goes on to the engine. */
    method AdmitReady(request: Request, now: Moment) returns (ok: bool)
      requires ValidWith(multiset{request.call}) && connection.Some? && !terminal
      modifies this, engine, contexts, pending, pending.requests, causality
      ensures Valid() && NothingForgotten()
      ensures Admitted(old(Look()), Look(), request, now, old(LedgerRefusal(request.bytes)), ok)
    {
      hide ContextState.Valid, PendingRequests.Valid, Balanced, CallsOf, Vouched, ContextsOf, BooksWith, Offered,
        LocalRefusal, LedgerRefusal;
      var prepared := engine.Prepare();
      LocalRefusalLocal(prepared.selection, request, now, prepared.preparation);
      ghost var asked := Look();
      var error := LocalRefusal(prepared.selection, request, now, prepared.preparation);
      if error.Some? {
        EndInHand(Fail(request.call, error.value, None));
        return true;
      }
      ghost var full := LedgerRefusal(request.bytes);
      ok := CommitPreparation(request, prepared.encoded);
      if full.None? {
        OfferedAsks(asked, Look(), request.call, prepared.encoded, ok);
      }
    }

    predicate Terminal()
      reads this
    {
      terminal || phase.PhaseClosed?
    }

    predicate CanAdmit()
      reads this
    {
      pendingRecovery.None? && connection.Some? && LivePhase(phase) && sessionReady && admissionOpen
    }

    /** A new call: refused by a terminal lane, queued until the session is ready, or admitted at once. */
    method Submit(request: Request, now: Moment) returns (ok: bool)
      requires Valid() && request.call !in given
      modifies this, engine, contexts, pending, pending.requests, causality
      ensures Valid() && NothingForgotten() && given == old(given) + {request.call} && old(settled) <= settled
      ensures var a := old(Look()).(given := given);
        if IsTerminal(a) then JustEnded(a, Look(), request.call, TerminalRefusal(a.last), ok)
        else if IsReady(a) then Admitted(a, Look(), request, now, old(LedgerRefusal(request.bytes)), ok)
        else ok && Waited(request, now)
    {
      hide ContextState.Valid, PendingRequests.Valid, Balanced, CallsOf, Vouched, ContextsOf, Admitted;
      ghost var b := BooksWith(multiset{});
      Give(b, request.call);
      given := given + {request.call};
      assert BooksWith(multiset{request.call}) == b.(given := b.given + {request.call}, inHand := b.inHand + multiset{request.call});
      if Terminal() {
        EndInHand(Fail(request.call, TerminalRefusal(lastClose), None));
        return true;
      }
      if !CanAdmit() {
        Wait(request, now);
        return true;
      }
      ghost var a, full := Look(), LedgerRefusal(request.bytes);
      ok := AdmitReady(request, now);
      AdmittedAsks(a, Look(), request, now, full, ok);
    }

    /** A call that cannot be admitted yet stands last in the queue, or ended with the reason it may not. */
    twostate predicate Waited(request: Request, now: Moment)
      requires old(pending.Valid()) && pending.Valid()
      reads this, pending, pending.requests
    {
      var refused := Refusal(request, request.bytes, now, |old(pending.Items())|, old(pending.retainedBytes),
                             pending.countLimit, pending.byteLimit);
      if refused.Some?
      then settled == old(settled) + [Fail(request.call, refused.value, None)] && pending.Items() == old(pending.Items())
      else
        && settled == old(settled)
        && pending.Items() == old(pending.Items()) + [Held(request, Establish(request, now).value)]
    }

    method Wait(request: Request, now: Moment)
      requires ValidWith(multiset{request.call}) && !Terminal()
      modifies this`settled, pending, pending.requests
      ensures Valid() && old(settled) <= settled && Waited(request, now)
    {
      hide ContextState.Valid, PendingRequests.Valid, Balanced, Vouched, ContextsOf;
      ghost var b := BooksWith(multiset{request.call});
      ghost var items := pending.Items();
      var refused := pending.Push(request, now);
      if refused.Some? {
        assert BooksWith(multiset{request.call}) == b;
        EndInHand(Fail(request.call, refused.value, None));
      } else {
        Queue(b, request.call);
        CallsOfSnoc(items, Held(request, Establish(request, now).value));
        assert BooksWith(multiset{}) == b.(inHand := b.inHand - multiset{request.call}, pending := b.pending + [request.call]);
      }
    }

    /**
     * `admit_pending`: queued calls go out oldest first, and the rest of the queue is as it was. It stops only at the
     * budget, at the end of the queue, or with the generation.
     */
    method AdmitPending(now: Moment, budget: nat) returns (ok: bool, admitted: nat)
      requires Valid() && !terminal
      modifies this, engine, contexts, pending, pending.requests, causality
      ensures Valid() && NothingForgotten() && PendingAdmitted(old(Look()), Look(), now, budget, admitted, ok)
    {
      hide ContextState.Valid, PendingRequests.Valid, Balanced, CallsOf, Vouched, ContextsOf, BooksWith, Valid,
        ValidWith, Admitted, AllAdmitted, NextAdmitted, LedgerRefusal;
      admitted := 0;
      if !CanAdmit() {
        return true, 0;
      }
      ghost var a := Look();
      NoneAdmitted(a, now);
      while admitted < budget
        invariant Valid() && NothingForgotten() && connection.Some? && pendingRecovery.None? && !terminal
        invariant admitted <= budget && AllAdmitted(a, Look(), admitted, now)
      {
        ghost var mid := Look();
        var found;
        ghost var full;
        found, ok, full := AdmitNext(now);
        if !found {
          return;
        }
        OneMoreAdmitted(a, mid, Look(), admitted, now, full, ok);
        if !ok {
          return;
        }
        admitted := admitted + 1;
        if pendingRecovery.Some? || terminal {
          return;
        }
      }
      ok := true;
    }

    /** The oldest queued call, if any, is admitted. */
    method AdmitNext(now: Moment) returns (found: bool, ok: bool, ghost full: Option<RequestError>)
      requires Valid() && !terminal && connection.Some?
      modifies this, engine, contexts, pending, pending.requests, causality
      ensures Valid() && NothingForgotten() && (found <==> old(Look()).queue.items != [])
      ensures !found ==> ok && Look() == old(Look())
      ensures found ==>
        && full == old(LedgerRefusal(Look().queue.items[0].value.request.bytes))
        && NextAdmitted(old(Look()), Look(), now, full, ok)
      ensures ok ==> !terminal && (connection.Some? || pendingRecovery.Some?)
    {
      hide ContextState.Valid, PendingRequests.Valid, Balanced, CallsOf, Vouched, ContextsOf, BooksWith, Valid,
        ValidWith, Admitted, LedgerRefusal;
      ghost var a := Look();
      full := if a.queue.items == [] then None else LedgerRefusal(a.queue.items[0].value.request.bytes);
      var request := TakePending();
      found, ok := request.Some?, true;
      if found {
        ghost var taken := Look();
        ok := AdmitReady(request.value, now);
        AdmittedGoesOn(taken, Look(), request.value, now, full, ok);
      }
    }

    method TakePending() returns (request: Option<Request>)
      requires Valid()
      modifies pending, pending.requests
      ensures Look() == old(Look()).(queue := PopFront(old(Look()).queue).0)
      ensures request.None? <==> old(Look()).queue.items == []
      ensures request.None? ==> Valid()
      ensures request.Some? ==>
        ValidWith(multiset{request.value.call}) && request.value == old(Look()).queue.items[0].value.request
    {
      hide ContextState.Valid, PendingRequests.Valid, Balanced, Vouched, ContextsOf, PopFront;
      ghost var b := BooksWith(multiset{});
      ghost var items := pending.Items();
      request := pending.Pop();
      if request.None? {
        assert BooksWith(multiset{}) == b;
      } else {
        Unqueue(b);
        assert CallsOf(items[1..]) == b.pending[1..];
        assert BooksWith(multiset{request.value.call}) ==
          b.(inHand := b.inHand + multiset{b.pending[0]}, pending := b.pending[1..]);
      }
    }

    /** Queued calls that ran out of time end as never sent, earliest deadline first. */
    method ExpirePending(now: Moment, budget: nat) returns (count: nat)
      requires Valid()
      modifies this`settled, pending, pending.requests
      ensures Valid() && Look() == AfterExpiry(old(Look()), now, budget)
      ensures count == |Expire(old(Look()).queue, now, budget).1| <= budget
    {
      hide ContextState.Valid, PendingRequests.Valid, Balanced, Vouched, ContextsOf, Expire, CallsOf, OneGeneration,
        Expired, WaitQueue.View, WaitQueue.Valid, Calls;
      ghost var b, items := BooksWith(multiset{}), pending.Items();
      var expired, more := pending.ExpireDue(now, budget);
      count := |expired|;
      var ended := Expired(expired);
      EmptyStays(items, pending.Items(), expired);
      SettleQueued(b, CallsOf(pending.Items()), ended);
      settled := settled + ended;
      assert BooksWith(multiset{}) == b.(pending := CallsOf(pending.Items()), settled := b.settled + ended);
    }

    /** A failed endpoint refresh keeps waiting for its retry or closes the policy. */
    method RefreshFailed() returns (ok: bool)
      requires Valid()
      modifies this`phase, this`admissionOpen, this`terminal, this`settled, contexts, pending, pending.requests, causality,
               engine`record
      ensures Valid() && RefreshSettled(old(Look()), Look(), ok) && given == old(given) && old(settled) <= settled
    {
      hide ContextState.Valid, PendingRequests.Valid, Balanced, Vouched, BooksWith, Told, AllEnd, StampedFrom;
      var policy := engine.Decide();
      if Terminal() || !phase.Refreshing? || !policy.gaveUp {
        return true;
      }
      phase := PhaseClosed(GaveUp);
      ok := SettlePolicyClose(if lastClose.Some? then lastClose.value else TransportLost(Other));
      if !ok {
        HostFatal();
      }
    }

    /**
     * `begin_session_drain`: queued calls end, then the broker policy drains a live generation through its session and
     * closes at once otherwise.
     */
    method BeginDrain() returns (ok: bool)
      requires Valid()
      modifies this, engine, contexts, pending, pending.requests, causality
      ensures Valid() && NothingForgotten() && DrainBegun(old(Look()), Look(), ok)
      ensures given == old(given) && old(settled) <= settled
    {
      hide ContextState.Valid, PendingRequests.Valid, Balanced, Vouched, BooksWith, CallsOf, Told, AllEnd,
        StampedFrom, CaptureSettled, PolicyDrained, ContextsOf;
      ghost var a := Look();
      admissionOpen := false;
      ghost var shut := Look();
      var settledOk := SettlePendingRecovery();
      ghost var mid := Look();
      CaptureWithin(shut, mid, settledOk);
      if !settledOk {
        assert DrainBegunVia(a, mid, mid, mid, false, false);
        return false;
      }
      EndQueue();
      ghost var ended := Look();
      ok := DrainPolicy();
      PolicyDrainedKeeps(ended, Look(), ok);
      assert DrainBegunVia(a, Look(), mid, ended, true, ok);
    }

    method EndQueue()
      requires Valid()
      modifies this`settled, pending, pending.requests, causality
      ensures Valid() && old(settled) <= settled && QueueEnded(old(Look()), Look(), NotSentAs(CallFailure.Draining))
      ensures Look() == old(Look()).(settled := settled, queue := Look().queue) && pending.Valid() && pending.Items() == []
    {
      hide ContextState.Valid, PendingRequests.Valid, Balanced, Vouched, BooksWith, CallsOf, Told, AllEnd, StampedFrom,
        ContextsOf;
      var failed := FailPending(NotSentAs(Draining), false);
    }

    method DrainPolicy() returns (ok: bool)
      requires Valid() && pendingRecovery.None? && pending.Items() == []
      modifies this, engine, contexts, pending, pending.requests, causality
      ensures Valid() && NothingForgotten() && PolicyDrained(old(Look()), Look(), ok)
    {
      hide ContextState.Valid, PendingRequests.Valid, Balanced, Vouched, BooksWith, CallsOf, SessionRan,
        HostFailed, ContextsOf;
      ok := true;
      if phase.Connecting? || phase.Available? {
        phase := DrainingPhase;
        ghost var a := Look();
        ok := connection.Some?;
        if ok {
          ok := SessionInput();
        }
        ghost var mid := Look();
        if !ok {
          HostFatal();
        }
        assert SessionDrainedVia(a, Look(), mid, ok);
      } else if !phase.DrainingPhase? {
        NothingPublished(contexts.published);
        phase := if phase.PhaseClosed? then phase else PhaseClosed(ByRequest);
        terminal := true;
      }
    }

    /** `prepare_drive`: the queue has lost what ran out of time, and the rest of the budget is left for admission. */
    method PrepareDrive(now: Moment, budget: nat) returns (ok: bool, remaining: nat)
      requires Valid()
      modifies this, engine, contexts, pending, pending.requests, causality
      ensures Valid() && NothingForgotten() && Prepared(old(Look()), Look(), now, budget, remaining, ok)
    {
      hide ContextState.Valid, PendingRequests.Valid, Balanced, Vouched, BooksWith, CallsOf, Valid, Expire, Expired,
        Reconnected, SessionTimed, CaptureSettled, ContextsOf, AfterExpiry;
      remaining := 0;
      ghost var a := Look();
      ok := Reconnect();
      if !ok { return; }
      ghost var reopened := Look();
      ok := TimeSession();
      if !ok { return; }
      ghost var timed := Look();
      var expired := ExpirePending(now, budget);
      remaining := budget - expired;
      ok := SettlePendingRecovery();
      assert PreparedVia(a, Look(), now, budget, reopened, timed, ok);
    }

    method TimeSession() returns (ok: bool)
      requires Valid()
      modifies this, engine, contexts, pending, pending.requests, causality
      ensures Valid() && NothingForgotten() && SessionTimed(old(Look()), Look(), ok)
    {
      hide ContextState.Valid, PendingRequests.Valid, Balanced, Vouched, BooksWith, CallsOf, Valid, SessionRan, ContextsOf;
      var due := engine.ReadSessionTimer();
      ghost var asked := Look();
      ok := true;
      if !terminal && due {
        ok := SessionInput();
        SessionRanAsks(asked, Look(), ok);
      }
    }

    /** The turn of the shared selector: drained, or failed for every lane, those without a connection included. */
    method TakeTurn() returns (ok: bool, ghost taken: nat)
      requires Valid()
      modifies this, engine, contexts, pending, pending.requests, causality
      ensures Valid() && NothingForgotten() && Turned(old(Look()), Look(), taken, ok)
    {
      hide ContextState.Valid, PendingRequests.Valid, Balanced, Vouched, BooksWith, CallsOf, Core, NothingStranded,
        EngineDrained, Over, TurnFailed, ContextsOf;
      var turn := engine.TakeTurn();
      ok, taken := true, 0;
      ghost var asked := Look();
      if connection.Some? {
        if turn.failed {
          ok := FailTurn();
          TurnFailedWithin(asked, Look(), ok);
        } else {
          ok, taken := DrainEngine();
          DrainedWithin(asked, Look(), taken, ok);
        }
      } else if turn.connected && turn.failed {
        GenerationInvariantFatal(true);
        ok := false;
        OverAsks(asked, Look());
      }
    }

    method FailTurn() returns (ok: bool)
      requires Valid() && connection.Some?
      modifies this, engine, contexts, pending, pending.requests, causality
      ensures Valid() && NothingForgotten() && TurnFailed(old(Look()), Look(), ok)
    {
      hide ContextState.Valid, PendingRequests.Valid, Balanced, Vouched, BooksWith, CallsOf, Core, NothingStranded, GivenUp,
        CaptureSettled, ContextsOf;
      ghost var a := Look();
      ok := Recover(true, false);
      ghost var mid, captured := Look(), ok;
      assert GivenUp(a, mid, false, captured);
      if ok {
        ok := SettlePendingRecovery();
      }
    }

    /**
     * `finish_drive`: a captured recovery is settled and queued calls are admitted. A lane that is ready afterwards has
     * admitted as many as it may, oldest first, or has none left.
     */
    method FinishDrive(now: Moment, remaining: nat) returns (ok: bool, admitted: nat)
      requires Valid()
      modifies this, engine, contexts, pending, pending.requests, causality
      ensures Valid() && NothingForgotten() && Finished(old(Look()), Look(), now, remaining, admitted, ok)
    {
      hide ContextState.Valid, PendingRequests.Valid, Balanced, Vouched, BooksWith, CallsOf, Valid, CaptureSettled,
        PendingAdmitted, ContextsOf;
      ghost var a := Look();
      admitted := 0;
      ok := SettlePendingRecovery();
      ghost var mid := Look();
      if !ok { return; }
      if Terminal() {
        assert FinishedVia(a, mid, now, remaining, 0, mid, mid, true);
        return;
      }
      ok, admitted := AdmitPending(now, remaining);
      if !ok { return; }
      ghost var sent := Look();
      ok := SettlePendingRecovery();
      assert FinishedVia(a, Look(), now, remaining, admitted, mid, sent, ok);
    }

    /**
     * One host turn over the lane; a lane whose preparation failed is drained and not finished. After a successful
     * turn that did not end the lane, the queue is what was not due, without the calls admitted; a lane that is ready
     * has admitted all of them or as many as expiry left of the budget; and one still connected has drained its engine.
     */
    method Drive(now: Moment, budget: nat) returns (ok: bool, admitted: nat)
      requires Valid()
      modifies this, engine, contexts, pending, pending.requests, causality
      ensures Valid() && NothingForgotten() && Driven(old(Look()), Look(), now, budget, admitted, ok)
      ensures given == old(given) && old(settled) <= settled && (ok ==> pendingRecovery.None?)
      ensures ok && !terminal ==> QueueDriven(old(Look()), Look(), now, budget, admitted)
      ensures ok && connection.Some? ==>
        && One(old(engine.record).outcomeDrains, engine.record.outcomeDrains) && Last(engine.record.outcomeDrains).Batch?
        && forall o :: o in Last(engine.record.outcomeDrains).items && o.key in old(engine.accepted) ==>
             o.key !in contexts.Contents()
    {
      hide ContextState.Valid, PendingRequests.Valid, Balanced, Vouched, BooksWith, CallsOf, Valid, ContextsOf, Prepared,
        Turned, Finished, QueueDriven, Line, Driven, DrivenVia;
      ghost var a := Look();
      admitted := 0;
      var prepared, remaining := PrepareDrive(now, budget);
      ghost var ready := Look();
      var turned;
      ghost var taken;
      turned, taken := TakeTurn();
      ghost var turn := Look();
      ok := prepared && turned;
      if prepared {
        var finished;
        finished, admitted := FinishDrive(now, remaining);
        DrivenBy(a, Look(), now, budget, admitted, ready, remaining, turn, taken, turned, finished);
        ok := ok && finished;
      } else {
        NotPrepared(a, Look(), now, budget, ready, remaining, taken, turned);
      }
      DrivenKeeps(a, Look(), now, budget, admitted, ok);
      if ok && connection.Some? {
        DrivenAllGone(a, Look(), now, budget, admitted);
      }
    }
  }

  lemma NothingHeld()
    ensures CallsOf([]) == [] && ContextsOf<Context>(map[]) == map[]
  {
  }

  lemma TailAfter<T>(s: seq<T>, n: nat)
    requires n <= |s|
    ensures s[n..] != [] ==> n < |s| && s[n..][1..] == s[n + 1..]
  {
  }

  lemma EmptyStays(items: seq<Waiting>, left: seq<Waiting>, gone: seq<CallId>)
    requires multiset(CallsOf(items)) == multiset(CallsOf(left)) + multiset(gone)
    ensures items == [] ==> left == []
  {
    assert |items| == |multiset(CallsOf(items))| == |left| + |gone|;
  }

  /** A published public context had its correlation bound before its frame was accepted. */
  lemma PublishedBound(b: Books, key: Key)
    requires Balanced(b) && key in b.published && b.published[key].Public?
    ensures b.published[key].correlation.Some?
  {
  }

  lemma NoneSince(settled: seq<Settlement>, error: RequestError)
    ensures FailedSince(settled, settled, error)
  {
  }

  lemma PrefixSince(before: seq<Settlement>, after: seq<Settlement>, error: RequestError)
    requires FailedSince(before, after, error)
    ensures before <= after
  {
  }

  /** Before the first entry nothing is named, ended or missing. */
  lemma NamedNone(epoch: nat, entries: seq<Entry>, published: map<Key, Published<Context>>, reason: CloseReason)
    ensures entries[..0] == [] && NamedBy(epoch, []) == [] && KeySet([]) == {} && published - {} == published
    ensures EntriesTold(ContextsOf(published), epoch, [], reason) == [] && FoundIn([], published.Keys)
  {
  }

  lemma NoKeysTold(published: map<Key, Context>, error: RequestError)
    ensures KeysTold(published, [], error) == []
  {
  }

  lemma NoOutcomesEnd(published: map<Key, Context>, why: Option<CloseReason>, settled: seq<Settlement>)
    ensures OutcomesEnd(published, [], why, settled, settled)
  {
  }

  lemma ReportedNone(outcomes: seq<EngineOutcome>, published: map<Key, Published<Context>>)
    ensures outcomes[..0] == [] && OutcomeNames([]) == [] && KeySet([]) == {} && published - {} == published
    ensures FoundIn([], published.Keys)
  {
  }

  lemma OneSince(settled: seq<Settlement>, s: Settlement, error: RequestError)
    requires s.outcome == Failed(error)
    ensures FailedSince(settled, settled + [s], error)
  {
  }

  lemma SinceThen(first: seq<Settlement>, mid: seq<Settlement>, last: seq<Settlement>, error: RequestError)
    requires FailedSince(first, mid, error) && FailedSince(mid, last, error)
    ensures FailedSince(first, last, error) && first <= mid <= last
  {
  }

  lemma NothingPublished(published: map<Key, Published<Context>>)
    requires published == map[]
    ensures PublicCalls(ContextsOf(published)) == {}
  {
  }

  lemma PublicShrinks(published: map<Key, Context>, key: Key)
    ensures PublicCalls(published - {key}) <= PublicCalls(published)
  {
    var rest := published - {key};
    forall c | c in PublicCalls(rest) ensures c in PublicCalls(published) {
      var k :| k in rest && rest[k].Public? && rest[k].call == c;
      assert published[k] == rest[k];
    }
  }

  lemma SettleFirst(b: Books, s: Settlement)
    requires Balanced(b) && b.pending != [] && s.call == b.pending[0] && ClaimsNotSent(s)
    ensures Balanced(b.(pending := b.pending[1..], settled := b.settled + [s]))
  {
    assert b.pending == [b.pending[0]] + b.pending[1..];
    assert Calls([s]) == [s.call];
    SettleQueued(b, b.pending[1..], [s]);
  }
}
