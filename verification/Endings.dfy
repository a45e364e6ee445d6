/** What the callers of a lane were told, apart from when, and which contexts a recovery report names. */
module Endings {
  import opened Common
  import opened Requests
  import opened Contexts
  import opened LaneBooks
  import opened Engines

  datatype Ending = Ending(call: CallId, outcome: Outcome)

  function Told(settled: seq<Settlement>): (told: seq<Ending>)
    ensures |told| == |settled|
    ensures forall i :: 0 <= i < |settled| ==> told[i] == Ending(settled[i].call, settled[i].outcome)
  {
    seq(|settled|, i requires 0 <= i < |settled| => Ending(settled[i].call, settled[i].outcome))
  }

  lemma ToldSnoc(settled: seq<Settlement>, s: Settlement)
    ensures Told(settled + [s]) == Told(settled) + [Ending(s.call, s.outcome)]
  {
  }

  lemma ToldGrows(before: seq<Settlement>, after: seq<Settlement>)
    requires before <= after
    ensures Told(before) <= Told(after)
  {
  }

  /** Every call ends with the one error, in order. */
  function AllEnd(calls: seq<CallId>, error: RequestError): (ends: seq<Ending>)
    ensures |ends| == |calls| && forall i :: 0 <= i < |calls| ==> ends[i] == Ending(calls[i], Failed(error))
  {
    seq(|calls|, i requires 0 <= i < |calls| => Ending(calls[i], Failed(error)))
  }

  lemma AllEndFirst(told: seq<Ending>, calls: seq<CallId>, error: RequestError)
    requires calls != []
    ensures told + AllEnd(calls, error) == told + [Ending(calls[0], Failed(error))] + AllEnd(calls[1..], error)
  {
  }

  /** The end of the call published under `key`, if there is one. */
  function EndOf(published: map<Key, Context>, key: Key, error: RequestError): seq<Ending> {
    if key in published && published[key].Public? then [Ending(published[key].call, Failed(error))] else []
  }

  /**
   * What the call of a published context is told about an outcome. A reply counts only if it could be stamped and
   * decodes. `why` is the reason already known for the end of its connection, if there is one.
   */
  predicate Tells(s: Settlement, correlation: int, o: EngineOutcome, why: Option<CloseReason>) {
    match o.outcome
    case Replied(body) =>
      && (s.observed.None? ==>
            s.outcome == Failed(Rejected(ConnectionClosed(if why.Some? then why.value else TransportLost(Other)), PossiblySent)))
      && (s.observed.Some? && body.Decodes? ==> s.outcome == Reply)
      && (s.observed.Some? && body.Undecodable? ==> s.outcome == Failed(Decode))
      && (s.observed.Some? && body.WrongCorrelation? ==>
            s.outcome == Failed(Rejected(CorrelationMismatch(correlation, body.received), PossiblySent)))
    case FailedBy(DeadlineElapsed, delivery) => s.outcome == Failed(Rejected(DeadlineExceeded, delivery))
    case FailedBy(ClosedUnder(reason), delivery) =>
      s.outcome == Failed(Rejected(
        ConnectionClosed(if why.Some? then why.value else ConnectionCloseReason(reason, o.diagnostic)), delivery))
    case FailedBy(MatchKeyMismatch(expected, received), delivery) =>
      s.outcome == Failed(Rejected(CorrelationMismatch(expected, received), delivery))
    case FailedBy(OtherFailure, delivery) => s.outcome == Failed(Rejected(LocallyRejected, delivery))
    case Cancelled(delivery) => s.outcome == Failed(Rejected(LocallyRejected, delivery))
    case WriteComplete(delivery) => s.outcome == Failed(Rejected(LocallyRejected, delivery))
    case Unrecognised => s.outcome == Failed(Rejected(LocallyRejected, PossiblySent))
  }

  /** The call of the outcome's context, if it is a call's, is told so; nobody else is told anything. */
  predicate OutcomeEnds(published: map<Key, Context>, o: EngineOutcome, why: Option<CloseReason>,
                        before: seq<Settlement>, after: seq<Settlement>)
  {
    if o.key in published && published[o.key].Public? then
      && |after| == |before| + 1 && after[..|before|] == before
      && after[|before|].call == published[o.key].call
      && (published[o.key].correlation.Some? ==> Tells(after[|before|], published[o.key].correlation.value, o, why))
    else after == before
  }

  /** From place `n` on, the call of a bound context was told about the outcome. */
  ghost predicate ToldIn(settled: seq<Settlement>, n: nat, context: Context, o: EngineOutcome)
    requires context.Public? && context.correlation.Some?
  {
    exists i, why :: n <= i < |settled| && settled[i].call == context.call && Tells(settled[i], context.correlation.value, o, why)
  }

  lemma ToldStays(settled: seq<Settlement>, later: seq<Settlement>, n: nat, context: Context, o: EngineOutcome)
    requires context.Public? && context.correlation.Some? && settled <= later && ToldIn(settled, n, context, o)
    ensures ToldIn(later, n, context, o)
  {
    var i, why :| n <= i < |settled| && settled[i].call == context.call && Tells(settled[i], context.correlation.value, o, why);
    assert later[i] == settled[i];
  }

  /** The outcomes of a report, each ending the call of its key, in order. */
  predicate OutcomesEnd(published: map<Key, Context>, outcomes: seq<EngineOutcome>, why: Option<CloseReason>,
                        before: seq<Settlement>, after: seq<Settlement>)
    decreases |outcomes|
  {
    if outcomes == [] then after == before
    else
      var n := |outcomes| - 1;
      var left := published - KeySet(OutcomeNames(outcomes[..n]));
      var last := if outcomes[n].key in left && left[outcomes[n].key].Public? then 1 else 0;
      && |after| >= |before| + last
      && OutcomesEnd(published, outcomes[..n], why, before, after[..|after| - last])
      && OutcomeEnds(left, outcomes[n], why, after[..|after| - last], after)
  }

  lemma OutcomesEndNext(published: map<Key, Context>, outcomes: seq<EngineOutcome>, i: nat, why: Option<CloseReason>,
                        before: seq<Settlement>, mid: seq<Settlement>, after: seq<Settlement>)
    requires i < |outcomes| && before <= mid && OutcomesEnd(published, outcomes[..i], why, before, mid)
    requires OutcomeEnds(published - KeySet(OutcomeNames(outcomes[..i])), outcomes[i], why, mid, after)
    ensures OutcomesEnd(published, outcomes[..i + 1], why, before, after)
  {
    var more := outcomes[..i + 1];
    assert more[..i] == outcomes[..i] && more[i] == outcomes[i];
    assert after[..|mid|] == mid;
  }

  /** Outcome `i` is the first to name a context that is a bound call's. */
  predicate FirstNames(published: map<Key, Context>, outcomes: seq<EngineOutcome>, i: nat)
    requires i < |outcomes|
  {
    && outcomes[i].key in published && published[outcomes[i].key].Public? && published[outcomes[i].key].correlation.Some?
    && forall j :: 0 <= j < i ==> outcomes[j].key != outcomes[i].key
  }

  /** Nothing was taken back, and whatever completed since failed with `error`. */
  ghost predicate FailedSince(before: seq<Settlement>, after: seq<Settlement>, error: RequestError) {
    before <= after && forall i :: |before| <= i < |after| ==> after[i].outcome == Failed(error)
  }

  /** Every completion from place `n` on carries the stamp it was observed at. */
  predicate StampedFrom(n: nat, settled: seq<Settlement>) {
    forall i :: n <= i < |settled| ==> settled[i].observed.Some?
  }

  lemma StampedMore(n: nat, before: seq<Settlement>, after: seq<Settlement>)
    requires n <= |before| && before <= after
    ensures StampedFrom(n, after) <==> StampedFrom(n, before) && StampedFrom(|before|, after)
  {
    if StampedFrom(n, after) {
      forall i | n <= i < |before| ensures before[i].observed.Some? {
        assert before[i] == after[i];
      }
    }
  }

  lemma StampedOne(settled: seq<Settlement>, s: Settlement)
    ensures StampedFrom(|settled|, settled)
    ensures StampedFrom(|settled|, settled + [s]) <==> s.observed.Some?
  {
    assert (settled + [s])[|settled|] == s;
  }

  // ------------------------------------------------------------------ what a report names

  function NamedBy(epoch: nat, entries: seq<Entry>): (keys: seq<Key>)
    ensures |keys| == |entries| && forall i :: 0 <= i < |keys| ==> keys[i] == Key(epoch, entries[i].operation)
  {
    seq(|entries|, i requires 0 <= i < |entries| => Key(epoch, entries[i].operation))
  }

  function OutcomeNames(outcomes: seq<EngineOutcome>): (keys: seq<Key>)
    ensures |keys| == |outcomes| && forall i :: 0 <= i < |keys| ==> keys[i] == outcomes[i].key
  {
    seq(|outcomes|, i requires 0 <= i < |outcomes| => outcomes[i].key)
  }

  /** Everything a recovery report names, in the order it is settled. */
  function ReportNames(report: Report): seq<Key> {
    OutcomeNames(report.outcomes) + NamedBy(report.epoch, report.operations) + NamedBy(report.epoch, report.unmatchedWrites)
  }

  function KeySet(keys: seq<Key>): set<Key> { set k | k in keys }

  /** Each key is present when its turn comes: none is missing and none is named twice. */
  predicate FoundIn(keys: seq<Key>, present: set<Key>) {
    && (forall i :: 0 <= i < |keys| ==> keys[i] in present)
    && (forall i, j :: 0 <= i < j < |keys| ==> keys[i] != keys[j])
  }

  lemma FoundNext(keys: seq<Key>, key: Key, present: set<Key>)
    ensures FoundIn(keys + [key], present) <==> FoundIn(keys, present) && key in present - KeySet(keys)
    ensures KeySet(keys + [key]) == KeySet(keys) + {key}
  {
    var more := keys + [key];
    if FoundIn(more, present) {
      assert more[|keys|] == key;
      forall i | 0 <= i < |keys| ensures keys[i] in present && keys[i] != key {
        assert more[i] == keys[i];
      }
      assert FoundIn(keys, present) by {
        forall i, j | 0 <= i < j < |keys| ensures keys[i] != keys[j] {
          assert more[i] == keys[i] && more[j] == keys[j];
        }
      }
    }
    if FoundIn(keys, present) && key in present - KeySet(keys) {
      forall i, j | 0 <= i < j < |more| ensures more[i] != more[j] {
        if j == |keys| {
          assert keys[i] in KeySet(keys);
        }
      }
    }
  }

  lemma {:induction false} FoundBoth(a: seq<Key>, b: seq<Key>, present: set<Key>)
    ensures FoundIn(a + b, present) <==> FoundIn(a, present) && FoundIn(b, present - KeySet(a))
    ensures KeySet(a + b) == KeySet(a) + KeySet(b)
    decreases |b|
  {
    if b == [] {
      assert a + b == a;
    } else {
      var n := |b| - 1;
      FoundBoth(a, b[..n], present);
      assert b == b[..n] + [b[n]];
      assert a + b == a + b[..n] + [b[n]];
      FoundNext(a + b[..n], b[n], present);
      FoundNext(b[..n], b[n], present - KeySet(a));
    }
  }

  /** Every context present is named, and named once, and nothing else is. */
  predicate NamesExactly(keys: seq<Key>, present: set<Key>) { FoundIn(keys, present) && present <= KeySet(keys) }

  lemma Covers<T>(s: set<T>, a: set<T>, b: set<T>, c: set<T>)
    ensures s - a - b - c == {} <==> s <= a + b + c
  {
    if s - a - b - c == {} {
      forall x | x in s ensures x in a + b + c {
        assert x !in s - a - b - c;
      }
    }
  }

  lemma NamesInParts(a: seq<Key>, b: seq<Key>, c: seq<Key>, present: set<Key>)
    ensures NamesExactly(a + b + c, present) <==>
      && FoundIn(a, present) && FoundIn(b, present - KeySet(a)) && FoundIn(c, present - KeySet(a) - KeySet(b))
      && present - KeySet(a) - KeySet(b) - KeySet(c) == {}
  {
    hide FoundIn;
    FoundBoth(a, b, present);
    FoundBoth(a + b, c, present);
    assert present - KeySet(a + b) == present - KeySet(a) - KeySet(b);
    Covers(present, KeySet(a), KeySet(b), KeySet(c));
  }

  lemma OutcomeNamesNext(outcomes: seq<EngineOutcome>, i: nat)
    requires i < |outcomes|
    ensures OutcomeNames(outcomes[..i + 1]) == OutcomeNames(outcomes[..i]) + [outcomes[i].key]
  {
    assert outcomes[..i + 1] == outcomes[..i] + [outcomes[i]];
  }

  /** The ends of the entries of a report, in order, each with the delivery recorded for it. */
  function EntriesTold(published: map<Key, Context>, epoch: nat, entries: seq<Entry>, reason: CloseReason): seq<Ending>
    decreases |entries|
  {
    if entries == [] then []
    else
      var n := |entries| - 1;
      var last := entries[n];
      EntriesTold(published, epoch, entries[..n], reason)
        + EndOf(published - KeySet(NamedBy(epoch, entries[..n])), Key(epoch, last.operation), Recovery(reason, last.delivery))
  }

  lemma EntriesToldNext(published: map<Key, Context>, epoch: nat, entries: seq<Entry>, i: nat, reason: CloseReason)
    requires i < |entries|
    ensures EntriesTold(published, epoch, entries[..i + 1], reason) ==
      EntriesTold(published, epoch, entries[..i], reason)
      + EndOf(published - KeySet(NamedBy(epoch, entries[..i])), Key(epoch, entries[i].operation), Recovery(reason, entries[i].delivery))
    ensures NamedBy(epoch, entries[..i + 1]) == NamedBy(epoch, entries[..i]) + [Key(epoch, entries[i].operation)]
  {
    var more := entries[..i + 1];
    assert more[..i] == entries[..i] && more[i] == entries[i];
  }

  /** The ends of the calls of `keys`, in order, all with the one error. */
  function KeysTold(published: map<Key, Context>, keys: seq<Key>, error: RequestError): seq<Ending>
    decreases |keys|
  {
    if keys == [] then []
    else
      var n := |keys| - 1;
      KeysTold(published, keys[..n], error) + EndOf(published - KeySet(keys[..n]), keys[n], error)
  }

  lemma KeysToldNext(published: map<Key, Context>, keys: seq<Key>, key: Key, error: RequestError)
    ensures KeysTold(published, keys + [key], error)
         == KeysTold(published, keys, error) + EndOf(published - KeySet(keys), key, error)
  {
    assert (keys + [key])[..|keys|] == keys;
  }

  /** A call that an entry names once, and that is published, ends with that entry's delivery. */
  lemma {:induction false} EntryEndsItsCall(published: map<Key, Context>, epoch: nat, entries: seq<Entry>, i: nat, reason: CloseReason)
    requires i < |entries| && FoundIn(NamedBy(epoch, entries), published.Keys)
    requires published[Key(epoch, entries[i].operation)].Public?
    ensures Ending(published[Key(epoch, entries[i].operation)].call, Failed(Recovery(reason, entries[i].delivery)))
         in EntriesTold(published, epoch, entries, reason)
    decreases |entries|
  {
    var n := |entries| - 1;
    var keys := NamedBy(epoch, entries);
    var before := NamedBy(epoch, entries[..n]);
    assert entries[..n + 1] == entries && before == keys[..n];
    assert Key(epoch, entries[n].operation) == keys[n];
    if i < n {
      assert entries[..n][i] == entries[i];
      EntryEndsItsCall(published, epoch, entries[..n], i, reason);
    } else {
      assert keys[n] !in KeySet(before);
    }
  }
}
