/**
 * The reactor's metadata owner: evidence stamped before a fetch is interpreted, carried through parking,
 * submission and completion into the counts, and compared with the stamps of failed calls.
 */
module MetadataOwners {
  import opened Common
  import opened Requests
  import opened Filters
  import opened Sorting
  import opened Metadata
  import opened MetadataRuns
  import opened MetadataMachines
  import opened Engines

  datatype Fetch = Fetch(operation: nat, generation: nat, evidence: Stamp, query: Query)

  /** What happened, in order: a stamp was issued, or a Metadata request was submitted. */
  datatype LogEntry = Issued(stamp: Stamp) | Sent(query: Query, evidence: Stamp)

  datatype Requirement = AnyView | NewerThan(generation: nat) | AfterOutcome(outcome: Stamp)

  predicate SatisfiedBy(r: Requirement, s: Snapshot, topic: Topic) {
    match r
    case AnyView => true
    case NewerThan(floor) => s.generation > floor
    case AfterOutcome(outcome) =>
      FindCount(s.counts, topic).Some? && FindCount(s.counts, topic).value.evidence > outcome
  }

  /** A route that failed: to a partition's leader, or to the controller. */
  datatype FailedRoute = OfPartition(route: Route) | OfController(broker: Broker)

  datatype Arrival = NoResult | CallFailed | Answered(response: Response)

  /** Stamps come from one counter, each once and in order. */
  ghost predicate InOrder(log: seq<LogEntry>, next: nat) {
    && (forall i, j :: 0 <= i < j < |log| && log[i].Issued? && log[j].Issued? ==> log[i].stamp < log[j].stamp)
    && (forall i :: 0 <= i < |log| && log[i].Issued? ==> log[i].stamp < next)
  }

  ghost predicate IssuedBefore(log: seq<LogEntry>, stamp: Stamp, j: nat) {
    exists i :: 0 <= i < j && i < |log| && log[i] == Issued(stamp)
  }

  /** Entry `j` is the submission of a request whose evidence had been issued before. */
  ghost predicate SentAt(log: seq<LogEntry>, j: nat, query: Query, evidence: Stamp) {
    j < |log| && log[j] == Sent(query, evidence) && IssuedBefore(log, evidence, j)
  }

  lemma LogGrows(log: seq<LogEntry>, more: seq<LogEntry>, j: nat, query: Query, evidence: Stamp)
    ensures SentAt(log, j, query, evidence) ==> SentAt(log + more, j, query, evidence)
    ensures IssuedBefore(log, evidence, |log|) ==> IssuedBefore(log + more, evidence, |log + more|)
  {
    if IssuedBefore(log, evidence, |log|) {
      var i :| 0 <= i < |log| && log[i] == Issued(evidence);
      assert (log + more)[i] == Issued(evidence);
    }
    if SentAt(log, j, query, evidence) {
      var i :| 0 <= i < j && log[i] == Issued(evidence);
      assert (log + more)[i] == Issued(evidence);
    }
  }

  /** Each count was carried by the answer to a request about its topic. */
  ghost predicate Traced(counts: seq<TopicCount>, log: seq<LogEntry>, sentAt: map<Topic, nat>) {
    forall c :: c in counts ==> c.topic in sentAt && SentAt(log, sentAt[c.topic], TopicQuery(c.topic), c.evidence)
  }

  lemma TracedGrows(counts: seq<TopicCount>, log: seq<LogEntry>, more: seq<LogEntry>, sentAt: map<Topic, nat>)
    requires Traced(counts, log, sentAt)
    ensures Traced(counts, log + more, sentAt)
  {
    forall c | c in counts ensures SentAt(log + more, sentAt[c.topic], TopicQuery(c.topic), c.evidence) {
      LogGrows(log, more, sentAt[c.topic], TopicQuery(c.topic), c.evidence);
    }
  }

  /**
   * Causal freshness. If a snapshot satisfies a requirement after outcome `o`, the request that produced
   * the topic's count stands in the log after `o` was stamped.
   */
  lemma Fresh(counts: seq<TopicCount>, log: seq<LogEntry>, next: nat, sentAt: map<Topic, nat>, topic: Topic, o: Stamp, at: nat)
    requires InOrder(log, next) && Traced(counts, log, sentAt)
    requires FindCount(counts, topic).Some? && FindCount(counts, topic).value.evidence > o
    requires at < |log| && log[at] == Issued(o)
    ensures topic in sentAt && at < sentAt[topic] < |log|
    ensures log[sentAt[topic]] == Sent(TopicQuery(topic), FindCount(counts, topic).value.evidence)
  {
    var c := FindCount(counts, topic).value;
    var i :| 0 <= i < sentAt[topic] && log[i] == Issued(c.evidence);
    assert at != i;
  }

  predicate EndsWithout(ended: Option<Fetch>, topic: Topic, o: Stamp) {
    ended.Some? && ended.value.query == TopicQuery(topic) && ended.value.evidence > o
  }

  lemma StillIssued(log: seq<LogEntry>, later: seq<LogEntry>, stamp: Stamp)
    requires log <= later && IssuedBefore(log, stamp, |log|)
    ensures IssuedBefore(later, stamp, |later|)
  {
    var i :| 0 <= i < |log| && log[i] == Issued(stamp);
    assert later[i] == Issued(stamp);
  }

  lemma JustIssued(log: seq<LogEntry>, stamp: Stamp)
    ensures IssuedBefore(log + [Issued(stamp)], stamp, |log| + 1)
  {
    assert (log + [Issued(stamp)])[|log|] == Issued(stamp);
  }

  /** All evidence in the counts was issued earlier than the next stamp. */
  lemma CountsIssued(counts: seq<TopicCount>, log: seq<LogEntry>, next: nat, sentAt: map<Topic, nat>)
    requires InOrder(log, next) && Traced(counts, log, sentAt)
    ensures forall c :: c in counts ==> c.evidence < next
  {
    forall c | c in counts ensures c.evidence < next {
      assert SentAt(log, sentAt[c.topic], TopicQuery(c.topic), c.evidence);
    }
  }

  class MetadataOwner {
    const causality: CausalSequence
    const limits: Limits
    const queryLimit: nat
    var machine: Machine
    var revocations: Revocations
    var requested: Option<Fetch>
    var pending: Option<Fetch>
    var nextOperation: nat
    var initialRefresh: bool

    ghost var log: seq<LogEntry>
    ghost var sentAt: map<Topic, nat>
    ghost var pendingAt: nat

    ghost predicate Sound()
      reads this`machine, this`revocations, this`requested, this`pending, this`log, this`sentAt, this`pendingAt
      reads causality
    {
      // Compared with true, here and below, so that the conjunction is proved as one obligation.
      true == (
        && causality.next <= U64_MAX
        && InOrder(log, causality.next)
        && Sane(machine, revocations)
        && Traced(CountsOf(Current(machine)), log, sentAt)
        && (requested.Some? ==> IssuedBefore(log, requested.value.evidence, |log|))
        && (pending.Some? ==> SentAt(log, pendingAt, pending.value.query, pending.value.evidence)))
    }

    /** The fetch that is parked or submitted. */
    function Active(): Option<Fetch>
      reads this`pending, this`requested
    {
      if pending.Some? then pending else requested
    }

    predicate Matches(f: Fetch)
      reads this`machine
    {
      machine.Refreshing? && f.operation == machine.operation && f.generation == machine.target && f.query == machine.query
    }

    /** One outstanding fetch exactly while the machine is refreshing, newer than everything installed. */
    ghost predicate Synced()
      reads this`machine, this`requested, this`pending
    {
      true == (
        && !(requested.Some? && pending.Some?)
        && (machine.Refreshing? <==> Active().Some?)
        && (Active().Some? ==>
              && Matches(Active().value)
              && forall c :: c in CountsOf(Current(machine)) ==> c.evidence < Active().value.evidence))
    }

    ghost predicate Valid()
      reads this`machine, this`revocations, this`requested, this`pending, this`log, this`sentAt, this`pendingAt
      reads causality
    {
      Sound() && Synced()
    }

    /** Facts about `topic` newer than `o` are installed, being fetched, or queued to be fetched. */
    ghost predicate Covered(topic: Topic, o: Stamp)
      reads this`machine, this`pending, this`requested
    {
      || NewerCount(CountsOf(Current(machine)), topic, o)
      || (machine.Refreshing? && TopicQuery(topic) in machine.queued)
      || (Active().Some? && Active().value.query == TopicQuery(topic) && Active().value.evidence > o)
    }

    constructor (causality: CausalSequence, limits: Limits, queryLimit: nat)
      requires causality.next <= U64_MAX
      ensures Valid() && this.causality == causality && log == []
    {
      this.causality, this.limits, this.queryLimit := causality, limits, queryLimit;
      machine, revocations := Empty(1), Revocations(None, []);
      requested, pending, nextOperation, initialRefresh := None, None, 1, true;
      log, sentAt, pendingAt := [], map[], 0;
    }

    /** The host takes the next position of the causal sequence, for evidence or for an observed outcome. */
    method NextStamp() returns (stamp: Option<Stamp>)
      requires Valid()
      modifies this`log, causality
      ensures Valid()
      ensures stamp.Some? ==>
        && stamp.value == old(causality.next) && log == old(log) + [Issued(stamp.value)] && stamp.value < causality.next
        && IssuedBefore(log, stamp.value, |log|)
        && forall c :: c in CountsOf(Current(machine)) ==> c.evidence < stamp.value
      ensures stamp.None? ==> log == old(log)
      ensures old(causality.next) <= causality.next
    {
      hide Sane, SentAt, IssuedBefore, Traced;
      CountsIssued(CountsOf(Current(machine)), log, causality.next, sentAt);
      stamp := causality.Reserve();
      if stamp.Some? {
        JustIssued(log, stamp.value);
        Append([Issued(stamp.value)]);
      }
    }

    /** The log only grows. */
    ghost method Append(more: seq<LogEntry>)
      requires Traced(CountsOf(Current(machine)), log, sentAt)
      requires requested.Some? ==> IssuedBefore(log, requested.value.evidence, |log|)
      requires pending.Some? ==> SentAt(log, pendingAt, pending.value.query, pending.value.evidence)
      modifies this`log
      ensures log == old(log) + more
      ensures Traced(CountsOf(Current(machine)), log, sentAt)
      ensures requested.Some? ==> IssuedBefore(log, requested.value.evidence, |log|)
      ensures pending.Some? ==> SentAt(log, pendingAt, pending.value.query, pending.value.evidence)
    {
      TracedGrows(CountsOf(Current(machine)), log, more, sentAt);
      if requested.Some? {
        LogGrows(log, more, 0, requested.value.query, requested.value.evidence);
      }
      if pending.Some? {
        LogGrows(log, more, pendingAt, pending.value.query, pending.value.evidence);
      }
      log := log + more;
    }

    /** `submit`: an identity or broker failure is an error of the owner. */
    method Submit(f: Fetch) returns (ok: bool)
      requires Sound() && pending.None? && requested.None? && IssuedBefore(log, f.evidence, |log|)
      modifies this`pending, this`log, this`pendingAt
      ensures Sound()
      ensures ok ==> pending == Some(f)
      ensures !ok ==> pending.None? && log == old(log)
      ensures old(log) <= log
    {
      hide Sane, Traced;
      var accepted: bool := *;
      if !accepted {
        return false;
      }
      ghost var before := log;
      Append([Sent(f.query, f.evidence)]);
      pendingAt := |before|;
      pending := Some(f);
      SubmittedAt(before, f);
      ok := true;
    }

    /** `interpret`: a fetch is submitted to a ready broker or parked; a second one is impossible. */
    method Interpret(effect: Effect, ready: bool, evidence: Stamp) returns (ok: bool)
      requires Sound()
      requires effect.NoEffect? ==> Synced()
      requires effect.StartFetch? ==>
        && requested.None? && pending.None? && IssuedBefore(log, evidence, |log|)
        && Matches(Fetch(effect.operation, effect.generation, evidence, effect.query))
        && forall c :: c in CountsOf(Current(machine)) ==> c.evidence < evidence
      modifies this`pending, this`requested, this`log, this`pendingAt
      ensures Sound() && (ok ==> Synced()) && old(log) <= log
      ensures effect.NoEffect? ==> ok && requested == old(requested) && pending == old(pending)
      ensures ok && effect.StartFetch? ==> Active() == Some(Fetch(effect.operation, effect.generation, evidence, effect.query))
    {
      hide Sane, Traced, InOrder, SentAt, IssuedBefore;
      if effect.NoEffect? {
        return true;
      }
      var fetch := Fetch(effect.operation, effect.generation, evidence, effect.query);
      if ready {
        ok := Submit(fetch);
      } else {
        if requested.Some? {
          assert false;
        }
        requested := Some(fetch);
        ok := true;
      }
    }

    method ReserveOperation() returns (operation: Option<nat>)
      modifies this`nextOperation
    {
      if nextOperation >= U64_MAX {
        return None;
      }
      operation := Some(nextOperation);
      nextOperation := nextOperation + 1;
    }

    /** The query is under way or waits its turn. */
    predicate Asked(query: Query)
      reads this`machine
    {
      machine.Refreshing? && (query == machine.query || query in machine.queued)
    }

    predicate AtLimit()
      reads this`machine
    {
      machine.Refreshing? && |machine.queued| >= queryLimit
    }

    /** Asks the machine for a query on behalf of the host turn stamped `evidence`. */
    method Ask(query: Query, mustFollow: bool, operation: nat, ready: bool, evidence: Stamp) returns (ok: bool, full: bool)
      requires Valid() && IssuedBefore(log, evidence, |log|)
      requires forall c :: c in CountsOf(Current(machine)) ==> c.evidence < evidence
      modifies this
      ensures Sound() && (ok ==> Synced()) && old(log) <= log
      ensures revocations == old(revocations) && sentAt == old(sentAt) && Current(machine) == Current(old(machine))
      ensures ok && !full && mustFollow && query.TopicQuery? ==>
        forall o: Stamp :: o < evidence ==> Covered(query.topic, o)
      ensures ok ==> forall topic: Topic, o: Stamp :: old(Covered(topic, o)) ==> Covered(topic, o)
      ensures ok && old(Active()).Some? ==> Active() == old(Active())
      ensures initialRefresh == old(initialRefresh)
      ensures ok ==> if full then AtLimit() && machine == old(machine) else Asked(query)
    {
      hide CoherentIfAny, InForceIfAny, Traced, InOrder, SentAt, IssuedBefore, FindCount;
      var t := Admit(machine, query, operation, mustFollow, queryLimit);
      machine := t.machine;
      full := t.disposition.QueryCapacityReached?;
      if t.disposition.GenerationExhausted? {
        return false, full;
      }
      ok := Interpret(t.effect, ready, evidence);
    }

    /**
     * `observe_completion` of a submitted fetch that has its result. `ended` is the fetch when it brought no
     * count for its topic: the waiters it was for are told or find their query no longer pending.
     */
    method Complete(arrival: Arrival, ready: bool, evidence: Stamp) returns (ok: bool, ghost ended: Option<Fetch>)
      requires Valid() && pending.Some? && !arrival.NoResult? && IssuedBefore(log, evidence, |log|)
      requires pending.value.evidence < evidence
      modifies this
      ensures Sound() && (ok ==> Synced()) && old(log) <= log
      ensures ok ==> forall topic: Topic, o: Stamp :: o < evidence && old(Covered(topic, o)) ==>
        Covered(topic, o) || EndsWithout(ended, topic, o)
      ensures ended.Some? ==> ended == old(pending)
      ensures forall c :: c in CountsOf(Current(machine)) ==> c.evidence < evidence
      ensures
        || (!ok && Current(machine) == Current(old(machine)) && revocations == old(revocations))
        || ShowsResult(old(machine), old(revocations), old(pending).value, arrival, limits, Current(machine), revocations)
      ensures StaysWithdrawn(old(pending)) && StaysOrSuperseded() && initialRefresh == old(initialRefresh)
    {
      hide Sane, Traced, InOrder, SentAt, IssuedBefore, FindCount, Completed, NewerCount, ShowsResult,
        SupersededIn, RevokedIn, UnservedBy, Supersedes;
      var f := pending.value;
      pending := None;
      var followup := ReserveOperation();
      if followup.None? {
        return false, Some(f);
      }
      CompletedKeeps(machine, revocations, f, arrival, limits, followup.value, log, sentAt, pendingAt);
      ghost var before := machine;
      var (t, left, installed) := Completed(machine, revocations, f, arrival, limits, followup.value);
      machine, revocations := t.machine, left;
      if installed && f.query.TopicQuery? {
        sentAt := sentAt[f.query.topic := pendingAt];
      }
      ended := if BroughtCount(installed, f, CountsOf(Current(machine))) then None else Some(f);
      SaneInForce(machine, revocations);
      WasSent(log, pendingAt, f);
      WithdrawalsStay(old(machine), old(revocations), f, arrival, limits, Current(machine), revocations);
      if t.disposition.GenerationExhausted? {
        return false, ended;
      }
      ghost var sent := log;
      ok := Interpret(t.effect, ready, evidence);
      SupersededStays(sent, log);
    }

    /** Submits a parked fetch, once the broker is ready. */
    method Unpark() returns (ok: bool)
      requires Valid() && requested.Some?
      modifies this`requested, this`pending, this`log, this`pendingAt
      ensures Sound() && (ok ==> Synced()) && old(log) <= log
      ensures ok ==> pending == old(requested) && requested.None?
      ensures ok ==> forall topic: Topic, o: Stamp :: old(Covered(topic, o)) ==> Covered(topic, o)
    {
      hide Sane, Traced, InOrder, SentAt, IssuedBefore;
      var f := requested.value;
      requested := None;
      ok := Submit(f);
    }

    /**
     * One turn: submit what was parked, take in a result, ask for the first snapshot. The scans of all waiters
     * begin, `scan`, exactly when a fetch was submitted or answered; without one the snapshot is the same and a
     * fetch under way stays under way.
     */
    method Drive(ready: bool, arrival: Arrival) returns (ok: bool, scan: bool, ghost ended: Option<Fetch>)
      requires Valid()
      modifies this, causality
      ensures Sound() && (ok ==> Synced()) && old(log) <= log
      ensures ok ==> |log| > |old(log)|
      ensures ok ==> forall topic: Topic, o: Stamp :: o < old(causality.next) && old(Covered(topic, o)) ==>
        Covered(topic, o) || EndsWithout(ended, topic, o)
      ensures ok ==>
        (scan <==> (ready && old(requested).Some?) || (old(pending).Some? && !arrival.NoResult?))
      ensures ok && !scan ==> ended.None? && Current(machine) == Current(old(machine))
      ensures ok && !scan && old(Active()).Some? ==> Active() == old(Active())
      ensures ok && !arrival.NoResult? && (old(pending).Some? || (ready && old(requested).Some?)) ==>
        ShowsResult(old(machine), old(revocations), old(Active()).value, arrival, limits, Current(machine), revocations)
      ensures StaysWithdrawn(old(Active())) && StaysOrSuperseded()
      ensures ok && ready ==> !initialRefresh
      ensures ok && ready && old(initialRefresh) && old(requested).None? ==> Asked(Cluster) || AtLimit()
    {
      hide Sane, Traced, InOrder, FindCount, NewerCount, SentAt, IssuedBefore, Covered, EndsWithout, Sound, Synced,
        ShowsResult, SupersededIn, RevokedIn, UnservedBy, Supersedes;
      ended, scan := None, false;
      PendingIssued();
      var stamp := NextStamp();
      if stamp.None? {
        return false, false, ended;
      }
      ok, scan, ended := Progress(ready, arrival, stamp.value);
      if !ok {
        return;
      }
      ghost var sent := log;
      ok := FirstRefresh(ready, stamp.value);
      SupersededStays(sent, log);
    }

    /** Submits what was parked and takes in a result. */
    method Progress(ready: bool, arrival: Arrival, evidence: Stamp)
      returns (ok: bool, scan: bool, ghost ended: Option<Fetch>)
      requires Valid() && IssuedBefore(log, evidence, |log|)
      requires Active().Some? ==> Active().value.evidence < evidence
      requires forall c :: c in CountsOf(Current(machine)) ==> c.evidence < evidence
      modifies this
      ensures Sound() && (ok ==> Synced()) && old(log) <= log && IssuedBefore(log, evidence, |log|)
      ensures ok ==> forall topic: Topic, o: Stamp :: o < evidence && old(Covered(topic, o)) ==>
        Covered(topic, o) || EndsWithout(ended, topic, o)
      ensures ok ==>
        (scan <==> (ready && old(requested).Some?) || (old(pending).Some? && !arrival.NoResult?))
      ensures ok && !scan ==> ended.None? && Current(machine) == Current(old(machine)) && Active() == old(Active())
      ensures ok && !arrival.NoResult? && (old(pending).Some? || (ready && old(requested).Some?)) ==>
        ShowsResult(old(machine), old(revocations), old(Active()).value, arrival, limits, Current(machine), revocations)
      ensures StaysWithdrawn(old(Active())) && StaysOrSuperseded()
      ensures initialRefresh == (old(initialRefresh) && !(ready && old(requested).Some?))
      ensures forall c :: c in CountsOf(Current(machine)) ==> c.evidence < evidence
    {
      hide Sane, Traced, InOrder, FindCount, NewerCount, SentAt, IssuedBefore, Covered, EndsWithout, Sound,
        ShowsResult, SupersededIn, RevokedIn, UnservedBy, Supersedes;
      ended, scan := None, false;
      ghost var before := log;
      if ready && requested.Some? {
        initialRefresh := false;
        ok := Unpark();
        if !ok {
          StillIssued(before, log, evidence);
          return;
        }
        scan := true;
      }
      StillIssued(before, log, evidence);
      var answered;
      ok, answered, ended := Observe(ready, arrival, evidence);
      scan := scan || answered;
    }

    /** The first snapshot is asked for once a broker is ready. */
    method FirstRefresh(ready: bool, evidence: Stamp) returns (ok: bool)
      requires Valid() && IssuedBefore(log, evidence, |log|)
      requires forall c :: c in CountsOf(Current(machine)) ==> c.evidence < evidence
      modifies this
      ensures Sound() && (ok ==> Synced()) && old(log) <= log
      ensures revocations == old(revocations) && Current(machine) == Current(old(machine))
      ensures ok ==> forall topic: Topic, o: Stamp :: old(Covered(topic, o)) ==> Covered(topic, o)
      ensures ok && old(Active()).Some? ==> Active() == old(Active())
      ensures ok && ready ==> !initialRefresh
      ensures ok && ready && old(initialRefresh) ==> Asked(Cluster) || AtLimit()
    {
      hide Sane, Traced, InOrder, FindCount, NewerCount, SentAt, IssuedBefore, Covered, Sound;
      ok := true;
      if initialRefresh && ready {
        initialRefresh := false;
        var operation := ReserveOperation();
        if operation.None? {
          return false;
        }
        var full;
        ok, full := Ask(Cluster, true, operation.value, ready, evidence);
      }
    }

    method Observe(ready: bool, arrival: Arrival, evidence: Stamp)
      returns (ok: bool, answered: bool, ghost ended: Option<Fetch>)
      requires Valid() && IssuedBefore(log, evidence, |log|)
      requires pending.Some? ==> pending.value.evidence < evidence
      requires forall c :: c in CountsOf(Current(machine)) ==> c.evidence < evidence
      modifies this
      ensures Sound() && (ok ==> Synced()) && old(log) <= log && IssuedBefore(log, evidence, |log|)
      ensures ok ==> forall topic: Topic, o: Stamp :: o < evidence && old(Covered(topic, o)) ==>
        Covered(topic, o) || EndsWithout(ended, topic, o)
      ensures forall c :: c in CountsOf(Current(machine)) ==> c.evidence < evidence
      ensures answered <==> old(pending).Some? && !arrival.NoResult?
      ensures !answered ==> ok && ended.None? && machine == old(machine) && Active() == old(Active())
      ensures answered && ok ==>
        ShowsResult(old(machine), old(revocations), old(pending).value, arrival, limits, Current(machine), revocations)
      ensures !answered ==> revocations == old(revocations)
      ensures StaysWithdrawn(old(Active())) && StaysOrSuperseded() && initialRefresh == old(initialRefresh)
    {
      hide Sane, Traced, InOrder, FindCount, NewerCount, SentAt, ShowsResult, SupersededIn, RevokedIn, UnservedBy;
      ok, answered, ended := true, pending.Some? && !arrival.NoResult?, None;
      if answered {
        ok, ended := Complete(arrival, ready, evidence);
      }
    }

    lemma PendingIssued()
      requires Sound()
      ensures pending.Some? ==> pending.value.evidence < causality.next
      ensures requested.Some? ==> requested.value.evidence < causality.next
    {
    }

    /** `wait_for_topic_view`: an admitted wait after an outcome is covered by a query that follows it. */
    method WaitForTopicView(topic: Topic, requirement: Requirement, room: bool, ready: bool)
      returns (ok: bool, admitted: bool)
      requires Valid()
      modifies this, causality
      ensures Sound() && (ok ==> Synced()) && old(log) <= log
      ensures ok ==> |log| > |old(log)|
      ensures ok ==> forall t: Topic, o: Stamp :: old(Covered(t, o)) ==> Covered(t, o)
      ensures ok && admitted && requirement.AfterOutcome? && requirement.outcome < old(causality.next) ==>
        Covered(topic, requirement.outcome)
      ensures ok && admitted ==> room && Asked(TopicQuery(topic))
      ensures ok && !admitted ==> !room || AtLimit()
      ensures Current(machine) == Current(old(machine)) && revocations == old(revocations)
    {
      hide Sane, Traced, InOrder, FindCount, NewerCount;
      var stamp := NextStamp();
      if stamp.None? {
        return false, false;
      }
      var operation := ReserveOperation();
      if operation.None? {
        return false, false;
      }
      if !room {
        return true, false;
      }
      var full;
      ok, full := Ask(TopicQuery(topic), !requirement.AnyView?, operation.value, ready, stamp.value);
      admitted := ok && !full;
    }

    /** The failed route is withdrawn until evidence newer than the failure, and is served no longer. */
    /** What was withdrawn still is, unless a request about it with newer evidence was submitted. */
    twostate predicate StaysOrSuperseded()
      reads this`machine, this`revocations, this`log
    {
      forall route: FailedRoute, o: Stamp ::
        Withdrawn(old(revocations), Current(old(machine)), route, o) ==>
          Withdrawn(revocations, Current(machine), route, o) || SupersededIn(log, route, o)
    }

    ghost predicate RouteWithdrawn(route: FailedRoute, observed: Stamp)
      reads this`machine, this`revocations
    {
      Withdrawn(revocations, Current(machine), route, observed)
    }

    /** What was withdrawn still is, unless `f` is newer and about it. */
    twostate predicate StaysWithdrawn(f: Option<Fetch>)
      reads this`machine, this`revocations
    {
      forall route: FailedRoute, o: Stamp ::
        Withdrawn(old(revocations), Current(old(machine)), route, o) && !(f.Some? && Supersedes(f.value, route, o)) ==>
          Withdrawn(revocations, Current(machine), route, o)
    }

    /**
     * A failed route. Unless there is no room for a query, it is withdrawn if the snapshot relied on it or it was
     * withdrawn already, and a partition's topic is then asked for again; a failure already known asks for
     * nothing, and a stale one changes nothing.
     */
    method Invalidate(route: FailedRoute, observed: Stamp, ready: bool) returns (ok: bool, disposition: Disposition)
      requires Valid()
      modifies this, causality
      ensures Sound() && (ok ==> Synced()) && old(log) <= log
      ensures ok ==> |log| > |old(log)|
      ensures ok ==> forall t: Topic, o: Stamp :: old(Covered(t, o)) ==> Covered(t, o)
      ensures ok && Refuses(disposition) ==> machine == old(machine) && revocations == old(revocations)
      ensures ok ==>
        (disposition.IgnoredStale? <==>
           !ServedBy(Current(old(machine)), route, observed) && !WithdrawnAlready(old(revocations), route))
      ensures ok && !Refuses(disposition) ==> RouteWithdrawn(route, observed)
      ensures ok && route.OfPartition? && !Refuses(disposition) && !RevokedIn(old(revocations), route, observed) ==>
        forall o: Stamp :: o < old(causality.next) ==> Covered(route.route.topic, o)
      ensures StaysWithdrawn(None) && LosesOnly(Current(old(machine)), Current(machine), route)
    {
      hide Traced, InOrder, FindCount, NewerCount, Sane, InvalidateRoute, RevokedIn, ServedBy, UnservedBy, LosesOnly,
        WithdrawnAlready;
      disposition := IgnoredStale;
      LosesNothing(Current(machine), route);
      var stamp := NextStamp();
      if stamp.None? {
        return false, disposition;
      }
      var operation := ReserveOperation();
      if operation.None? {
        return false, disposition;
      }
      RouteInvalidated(machine, revocations, route, observed, operation.value, queryLimit);
      var (t, left) := InvalidateRoute(machine, revocations, route, observed, operation.value, queryLimit);
      machine, revocations := t.machine, left;
      disposition := t.disposition;
      if disposition.GenerationExhausted? {
        return false, disposition;
      }
      ok := Interpret(t.effect, ready, stamp.value);
    }

    /** The request that produced the installed count of `topic` was submitted after place `at` of the log. */
    ghost predicate RestsOnLater(topic: Topic, at: nat)
      reads this`machine, this`log, this`sentAt
    {
      && Current(machine).Some? && FindCount(Current(machine).value.counts, topic).Some?
      && topic in sentAt && at < sentAt[topic] < |log|
      && log[sentAt[topic]] == Sent(TopicQuery(topic), FindCount(Current(machine).value.counts, topic).value.evidence)
    }

    /** The causal promise to a waiter, for the owner's own log. */
    lemma ViewIsFresh(topic: Topic, o: Stamp, at: nat)
      requires Sound() && Current(machine).Some? && SatisfiedBy(AfterOutcome(o), Current(machine).value, topic)
      requires at < |log| && log[at] == Issued(o)
      ensures RestsOnLater(topic, at)
    {
      Fresh(Current(machine).value.counts, log, causality.next, sentAt, topic, o, at);
    }
  }

  lemma SubmittedAt(log: seq<LogEntry>, f: Fetch)
    requires IssuedBefore(log, f.evidence, |log|)
    ensures SentAt(log + [Sent(f.query, f.evidence)], |log|, f.query, f.evidence)
  {
    var i :| 0 <= i < |log| && log[i] == Issued(f.evidence);
    assert (log + [Sent(f.query, f.evidence)])[i] == Issued(f.evidence);
  }

  /** The answer may be installed: it takes no known leader back. */
  ghost predicate Advancing(m: Machine, s: Snapshot)
    requires m.Refreshing?
  {
    m.query.TopicQuery? ==> AllAdvance(LeadersOf(m.current), s.leaders)
  }

  /** A completed fetch installs its own facts or leaves the snapshot as it was, and the next query follows. */
  lemma Completes(m: Machine, rs: Revocations, operation: nat, s: Snapshot, followup: nat)
    requires Sane(m, rs) && Coherent(s) && m.Refreshing? && operation == m.operation && s.generation == m.target
    ensures var (t, left) := Succeed(m, operation, s, followup, rs);
      && Sane(t.machine, left)
      && CountsOf(Current(t.machine)) == (if t.disposition.RejectedRegression? then CountsOf(m.current) else s.counts)
      && Follows(m, t)
      && (t.disposition.RejectedRegression? <==> !Advancing(m, s))
      && (if Advancing(m, s) then
            Current(t.machine).Some? && ShownAs(s, left, Current(t.machine).value) && LiftedBy(rs, left, m.query, s.evidence)
          else Current(t.machine) == m.current && left == rs)
  {
    hide Coherent, LeadersRegress, Withdraw, AllAdvance, LiftedBy;
    WithdrawKeeps(s, rs, m.query);
    RegressionExact(LeadersOf(m.current), s.leaders);
    if m.current.None? {
      NothingBefore(s.leaders);
    }
  }

  lemma SaneInForce(m: Machine, rs: Revocations)
    requires Sane(m, rs)
    ensures InForceIfAny(Current(m), rs)
  {
  }

  lemma NothingBefore(now: seq<PartitionLeader>)
    ensures AllAdvance([], now)
  {
  }

  /** The head of the queue, if any, becomes the active query; only generation exhaustion drops it. */
  ghost predicate Follows(m: Machine, t: Transition)
    requires m.Refreshing?
  {
    match t.effect
    case NoEffect => !t.machine.Refreshing? && (m.queued == [] || t.disposition.GenerationExhausted?)
    case StartFetch(operation, generation, query) =>
      && t.machine.Refreshing? && m.queued != [] && query == m.queued[0] && t.machine.queued == m.queued[1..]
      && t.machine.query == query && t.machine.operation == operation && t.machine.target == generation
  }

  lemma TracedInstall(response: Response, p: Provenance, current: Option<Snapshot>, limits: Limits,
                      log: seq<LogEntry>, sentAt: map<Topic, nat>, at: nat)
    requires CoherentIfAny(current) && Assemble(response, p, current, limits).Ok?
    requires Traced(CountsOf(current), log, sentAt) && SentAt(log, at, p.query, p.evidence)
    ensures var s := Assemble(response, p, current, limits).value;
      Traced(s.counts, log, if p.query.TopicQuery? then sentAt[p.query.topic := at] else sentAt)
  {
    hide Assemble, FindCount, SentAt;
    var s := Assemble(response, p, current, limits).value;
    AssembleCoherent(response, p, current, limits);
    forall c | c in s.counts
      ensures p.query == TopicQuery(c.topic) ==> c.evidence == p.evidence
      ensures p.query != TopicQuery(c.topic) ==> c in CountsOf(current)
    {
      FoundIsOnly(s.counts, c);
      if p.query == TopicQuery(c.topic) {
        MergeStampsItsTopic(response, p, current, limits);
      } else {
        MergeTouchesOnlyItsTopic(response, p, current, limits, c.topic);
      }
    }
  }

  /** Counts only ever get newer evidence, from the fetch that is completing. */
  lemma InstallNewer(response: Response, p: Provenance, current: Option<Snapshot>, limits: Limits, topic: Topic, o: Stamp)
    requires CoherentIfAny(current) && Assemble(response, p, current, limits).Ok?
    requires forall c :: c in CountsOf(current) ==> c.evidence < p.evidence
    ensures var s := Assemble(response, p, current, limits).value;
      && (forall c :: c in s.counts ==> c.evidence <= p.evidence)
      && (NewerCount(CountsOf(current), topic, o) || (p.query == TopicQuery(topic) && p.evidence > o) ==>
            NewerCount(s.counts, topic, o) || (p.query == TopicQuery(topic) && p.evidence > o && FindCount(s.counts, topic).None?))
  {
    hide Assemble, FindCount;
    var s := Assemble(response, p, current, limits).value;
    AssembleCoherent(response, p, current, limits);
    forall c | c in s.counts ensures c.evidence <= p.evidence {
      FoundIsOnly(s.counts, c);
      if p.query == TopicQuery(c.topic) {
        MergeStampsItsTopic(response, p, current, limits);
      } else {
        MergeTouchesOnlyItsTopic(response, p, current, limits, c.topic);
      }
    }
    if p.query == TopicQuery(topic) {
      MergeStampsItsTopic(response, p, current, limits);
    } else {
      MergeTouchesOnlyItsTopic(response, p, current, limits, topic);
    }
  }

  ghost predicate NewerCount(counts: seq<TopicCount>, topic: Topic, o: Stamp) {
    FindCount(counts, topic).Some? && FindCount(counts, topic).value.evidence > o
  }

  /** The machine after a fetch has its result, and whether its answer was installed. */
  function Completed(m: Machine, rs: Revocations, f: Fetch, arrival: Arrival, limits: Limits, followup: nat):
    (Transition, Revocations, bool)
  {
    var failed := (FailRefresh(m, f.operation, followup), rs, false);
    if !arrival.Answered? then failed
    else
      var built := Assemble(arrival.response, ProvenanceOf(f), Current(m), limits);
      if built.Err? then failed
      else
        var (t, left) := Succeed(m, f.operation, built.value, followup, rs);
        (t, left, !t.disposition.RejectedRegression?)
  }

  function ProvenanceOf(f: Fetch): Provenance { Provenance(f.generation, f.evidence, f.operation, f.query) }

  /** A view newer than the one shown is what an accepted answer brings, and nothing else does. */
  lemma NewerNeedsAnswer(m: Machine, rs: Revocations, f: Fetch, arrival: Arrival, limits: Limits, followup: nat, topic: Topic)
    requires m.Refreshing? && m.current.Some? && Ahead(m) && f.operation == m.operation && f.generation == m.target
    ensures var (t, left, installed) := Completed(m, rs, f, arrival, limits, followup);
      && Current(t.machine).Some?
      && (SatisfiedBy(NewerThan(m.current.value.generation), Current(t.machine).value, topic) <==> installed)
  {
    hide Assemble, Keep, LeadersRegress;
    if arrival.Answered? {
      var built := Assemble(arrival.response, ProvenanceOf(f), m.current, limits);
      if built.Ok? {
        AssembledFor(arrival.response, ProvenanceOf(f), m.current, limits);
        WithdrawnAlike(built.value, rs, m.query);
      }
    }
  }

  lemma AssembledFor(response: Response, p: Provenance, current: Option<Snapshot>, limits: Limits)
    requires Assemble(response, p, current, limits).Ok?
    ensures Assemble(response, p, current, limits).value.generation == p.generation
  {
    hide Directory, PartitionFacts, Keep, FindCount;
  }

  lemma WithdrawnAlike(s: Snapshot, rs: Revocations, query: Query)
    ensures Withdraw(s, rs, query).0.generation == s.generation
  {
    hide Keep;
    var lifted := rs.controller.Some? && query.Cluster? && s.evidence > rs.controller.value.1;
    PartitionsAlike(if rs.controller.Some? && !lifted then RevokeController(s) else s,
                    Keep(StillRevoked(query, s.evidence), rs.partitions));
  }

  lemma {:induction false} PartitionsAlike(s: Snapshot, rs: seq<Revocation>)
    ensures WithdrawPartitions(s, rs).generation == s.generation
    decreases |rs|
  {
    if rs != [] {
      PartitionsAlike(RevokePartition(s, rs[0].route.topic, rs[0].route.partition), rs[1..]);
    }
  }

  predicate BroughtCount(installed: bool, f: Fetch, counts: seq<TopicCount>) {
    installed && (f.query.TopicQuery? ==> FindCount(counts, f.query.topic).Some?)
  }

  /** What the owner shows after a fetch has its result: the answer, if it was accepted, or what it showed before. */
  ghost predicate ShowsResult(m: Machine, rs: Revocations, f: Fetch, arrival: Arrival, limits: Limits,
                              after: Option<Snapshot>, left: Revocations)
    requires m.Refreshing?
  {
    var asked := Provenance(f.generation, f.evidence, f.operation, f.query);
    if arrival.Answered? && Assemble(arrival.response, asked, m.current, limits).Ok?
       && Advancing(m, Assemble(arrival.response, asked, m.current, limits).value)
    then
      && after.Some? && ShownAs(Assemble(arrival.response, asked, m.current, limits).value, left, after.value)
      && LiftedBy(rs, left, f.query, f.evidence)
    else after == m.current && left == rs
  }

  /** A fetch about the route, or about the cluster for the controller, that is newer than the failure. */
  predicate Supersedes(f: Fetch, failed: FailedRoute, o: Stamp) {
    f.evidence > o && f.query == QueryAbout(failed)
  }

  ghost predicate RevokedIn(rs: Revocations, route: FailedRoute, observed: Stamp) {
    match route
    case OfPartition(r) => RevokedAfter(rs.partitions, r, observed)
    case OfController(broker) => rs.controller.Some? && rs.controller.value.0 == broker && observed <= rs.controller.value.1
  }

  ghost predicate Withdrawn(rs: Revocations, current: Option<Snapshot>, route: FailedRoute, observed: Stamp) {
    RevokedIn(rs, route, observed) && UnservedBy(current, route)
  }

  /** A request about the route, newer than the failure, stands in the log. */
  ghost predicate SupersededIn(log: seq<LogEntry>, route: FailedRoute, o: Stamp) {
    exists j :: 0 <= j < |log| && log[j].Sent? && log[j].query == QueryAbout(route) && log[j].evidence > o
  }

  lemma WasSent(log: seq<LogEntry>, at: nat, f: Fetch)
    requires SentAt(log, at, f.query, f.evidence)
    ensures forall route: FailedRoute, o: Stamp :: Supersedes(f, route, o) ==> SupersededIn(log, route, o)
  {
  }

  lemma SupersededStays(log: seq<LogEntry>, later: seq<LogEntry>)
    requires log <= later
    ensures forall route: FailedRoute, o: Stamp :: SupersededIn(log, route, o) ==> SupersededIn(later, route, o)
  {
    forall route: FailedRoute, o: Stamp | SupersededIn(log, route, o) ensures SupersededIn(later, route, o) {
      var j :| 0 <= j < |log| && log[j].Sent? && log[j].query == QueryAbout(route) && log[j].evidence > o;
      assert later[j] == log[j];
    }
  }

  ghost predicate UnservedBy(current: Option<Snapshot>, route: FailedRoute) {
    current.Some? ==> match route
    case OfPartition(r) => forall l :: l in current.value.leaders ==> LeaderRank(l) != (r.topic, r.partition)
    case OfController(_) => current.value.controller.None?
  }

  /** The snapshot relies on the route, with evidence no newer than the failure. */
  ghost predicate ServedBy(current: Option<Snapshot>, route: FailedRoute, observed: Stamp) {
    current.Some? && match route
    case OfPartition(r) => Serves(current.value, r, observed)
    case OfController(broker) => current.value.controller == Some(broker) && current.value.evidence <= observed
  }

  ghost predicate WithdrawnAlready(rs: Revocations, route: FailedRoute) {
    match route
    case OfPartition(r) => exists i :: 0 <= i < |rs.partitions| && rs.partitions[i].route == r
    case OfController(broker) => rs.controller.Some? && rs.controller.value.0 == broker
  }

  function QueryAbout(route: FailedRoute): Query { if route.OfPartition? then TopicQuery(route.route.topic) else Cluster }

  /** Nothing is missing but, perhaps, the failed route. */
  ghost predicate LosesOnly(before: Option<Snapshot>, after: Option<Snapshot>, route: FailedRoute) {
    && before.Some? == after.Some?
    && (before.Some? ==> match route
      case OfPartition(r) =>
        && after.value == before.value.(leaders := after.value.leaders)
        && (forall l :: l in after.value.leaders ==> l in before.value.leaders)
        && (forall l :: l in before.value.leaders && LeaderRank(l) != (r.topic, r.partition) ==> l in after.value.leaders)
      case OfController(_) => after.value == before.value.(controller := after.value.controller))
  }

  lemma LosesNothing(current: Option<Snapshot>, route: FailedRoute)
    ensures LosesOnly(current, current, route)
  {
  }

  function InvalidateRoute(m: Machine, rs: Revocations, route: FailedRoute, observed: Stamp, operation: nat, limit: nat):
    (Transition, Revocations)
  {
    match route
    case OfPartition(r) => InvalidatePartition(m, rs, r, observed, operation, limit)
    case OfController(broker) => InvalidateController(m, rs, broker, observed, operation, limit)
  }

  /** A failed route of either kind. */
  lemma RouteInvalidated(m: Machine, rs: Revocations, route: FailedRoute, observed: Stamp, operation: nat, limit: nat)
    requires Sane(m, rs)
    ensures var (t, left) := InvalidateRoute(m, rs, route, observed, operation, limit);
      && Sane(t.machine, left) && CountsOf(Current(t.machine)) == CountsOf(Current(m))
      && (t.effect.StartFetch? <==> !m.Refreshing? && t.machine.Refreshing?)
      && (m.Refreshing? ==>
            && t.machine.Refreshing? && t.machine.(queued := m.queued, current := m.current) == m
            && forall q :: q in m.queued ==> q in t.machine.queued)
      && Asks(t) && LosesOnly(Current(m), Current(t.machine), route)
      && (if Refuses(t.disposition) then
            t.machine == m && left == rs
          else RevokedIn(left, route, observed) && UnservedBy(Current(t.machine), route))
      && (t.disposition.IgnoredStale? <==> !ServedBy(Current(m), route, observed) && !WithdrawnAlready(rs, route))
      && (Refuses(t.disposition) || t.disposition.GenerationExhausted? || RevokedIn(rs, route, observed)
          || FollowUp(t, QueryAbout(route)))
      && (forall other: FailedRoute, o: Stamp :: RevokedIn(rs, other, o) ==>
            RevokedIn(left, other, o) && UnservedBy(Current(t.machine), other))
  {
    hide InvalidatePartition, InvalidateController, CoherentIfAny, Serves;
    if route.OfPartition? {
      PartitionInvalidated(m, rs, route.route, observed, operation, limit);
    } else {
      ControllerInvalidated(m, rs, route.broker, observed, operation, limit);
    }
    var (t, left) := InvalidateRoute(m, rs, route, observed, operation, limit);
    forall other: FailedRoute, o: Stamp | RevokedIn(rs, other, o)
      ensures RevokedIn(left, other, o) && UnservedBy(Current(t.machine), other)
    {
      if other.OfPartition? {
        var i :| 0 <= i < |rs.partitions| && rs.partitions[i].route == other.route && o <= rs.partitions[i].requiredAfter;
        assert rs.partitions[i] in rs.partitions;
        if route.OfPartition? {
          var j :| 0 <= j < |left.partitions| && left.partitions[j].route == other.route
            && rs.partitions[i].requiredAfter <= left.partitions[j].requiredAfter;
        }
      }
    }
  }

  /** Only a newer answer about a withdrawn route brings it back. */
  lemma WithdrawalsStay(m: Machine, rs: Revocations, f: Fetch, arrival: Arrival, limits: Limits,
                        after: Option<Snapshot>, left: Revocations)
    requires m.Refreshing? && ShowsResult(m, rs, f, arrival, limits, after, left) && InForceIfAny(after, left)
    ensures forall route: FailedRoute, o: Stamp ::
      RevokedIn(rs, route, o) && !Supersedes(f, route, o) ==>
        RevokedIn(left, route, o) && UnservedBy(after, route)
  {
    hide Assemble, ShownAs, AllAdvance;
    forall route: FailedRoute, o: Stamp | RevokedIn(rs, route, o) && !Supersedes(f, route, o)
      ensures RevokedIn(left, route, o) && UnservedBy(after, route)
    {
      if route.OfPartition? && left != rs {
        var i :| 0 <= i < |rs.partitions| && rs.partitions[i].route == route.route && o <= rs.partitions[i].requiredAfter;
        assert rs.partitions[i] in rs.partitions;
        assert rs.partitions[i] in left.partitions;
      }
    }
  }

  /** What a completed fetch keeps: sanity, provenance, order of evidence, and what was covered. */
  lemma CompletedKeeps(m: Machine, rs: Revocations, f: Fetch, arrival: Arrival, limits: Limits, followup: nat,
                       log: seq<LogEntry>, sentAt: map<Topic, nat>, at: nat)
    requires m.Refreshing? && Sane(m, rs) && f.operation == m.operation && f.generation == m.target && f.query == m.query
    requires Traced(CountsOf(m.current), log, sentAt) && SentAt(log, at, f.query, f.evidence)
    requires forall c :: c in CountsOf(m.current) ==> c.evidence < f.evidence
    ensures var (t, left, installed) := Completed(m, rs, f, arrival, limits, followup);
      var counts := CountsOf(Current(t.machine));
      && Sane(t.machine, left) && Follows(m, t)
      && Traced(counts, log, if installed && f.query.TopicQuery? then sentAt[f.query.topic := at] else sentAt)
      && (forall c :: c in counts ==> c.evidence <= f.evidence)
      && (forall topic: Topic, o: Stamp ::
            NewerCount(CountsOf(m.current), topic, o) || (f.query == TopicQuery(topic) && f.evidence > o) ==>
              NewerCount(counts, topic, o)
              || (f.query == TopicQuery(topic) && f.evidence > o && !BroughtCount(installed, f, counts)))
      && ShowsResult(m, rs, f, arrival, limits, Current(t.machine), left)
  {
    hide Assemble, Succeed, Traced, FindCount, SentAt, Coherent, InForce, LiftedBy, ShownAs, AllAdvance;
    if arrival.Answered? && Assemble(arrival.response, ProvenanceOf(f), m.current, limits).Ok? {
      var built := Assemble(arrival.response, ProvenanceOf(f), m.current, limits).value;
      AssembleCoherent(arrival.response, ProvenanceOf(f), m.current, limits);
      Completes(m, rs, f.operation, built, followup);
      TracedInstall(arrival.response, ProvenanceOf(f), m.current, limits, log, sentAt, at);
      InstallNewer(arrival.response, ProvenanceOf(f), m.current, limits, 0, 0);
      forall topic: Topic, o: Stamp
        ensures NewerCount(CountsOf(m.current), topic, o) || (f.query == TopicQuery(topic) && f.evidence > o) ==>
          NewerCount(built.counts, topic, o)
          || (f.query == TopicQuery(topic) && f.evidence > o && FindCount(built.counts, topic).None?)
      {
        InstallNewer(arrival.response, ProvenanceOf(f), m.current, limits, topic, o);
      }
    }
  }

  datatype HostStep =
    | DriveTurn(ready: bool, arrival: Arrival)
    | OutcomeObserved
    | ViewWait(topic: Topic, requirement: Requirement, room: bool, ready: bool)
    | RouteFailed(route: FailedRoute, observed: Stamp, ready: bool)

  method Perform(owner: MetadataOwner, step: HostStep) returns (ok: bool)
    requires owner.Valid()
    modifies owner, owner.causality
    ensures owner.Sound() && (ok ==> owner.Synced()) && old(owner.log) <= owner.log
    ensures ok ==> |owner.log| > |old(owner.log)|
    ensures owner.StaysOrSuperseded()
  {
    hide MetadataOwner.Sound, MetadataOwner.Synced, Withdrawn, SupersededIn, Supersedes, ShowsResult, ServedBy, LosesOnly;
    match step
    case DriveTurn(ready, arrival) =>
      ghost var ended;
      var scan;
      ok, scan, ended := owner.Drive(ready, arrival);
    case OutcomeObserved =>
      var stamp := owner.NextStamp();
      ok := stamp.Some?;
    case ViewWait(topic, requirement, room, ready) =>
      var admitted;
      ok, admitted := owner.WaitForTopicView(topic, requirement, room, ready);
    case RouteFailed(route, observed, ready) =>
      var disposition;
      ok, disposition := owner.Invalidate(route, observed, ready);
  }

  /** The view of `topic` in the owner's snapshot is fresher than outcome `o`, stamped at `at`. */
  ghost predicate Satisfies(owner: MetadataOwner, topic: Topic, o: Stamp, at: nat)
    reads owner
  {
    && at < |owner.log| && owner.log[at] == Issued(o)
    && Current(owner.machine).Some? && SatisfiedBy(AfterOutcome(o), Current(owner.machine).value, topic)
  }

  /**
   * In every run, up to its first error and after it: the snapshot is coherent, no withdrawn route is served, and a view accepted
   * as newer than an outcome rests on a count produced by a request submitted after that outcome was stamped. A
   * route withdrawn after a failure stays so until a newer request about it was submitted.
   */
  method Run(owner: MetadataOwner, steps: seq<HostStep>) returns (done: nat)
    requires owner.Valid()
    modifies owner, owner.causality
    ensures owner.Sound() && old(owner.log) <= owner.log
    ensures done <= |steps| && (done == |steps| ==> owner.Valid()) && |owner.log| >= |old(owner.log)| + done
    ensures CoherentIfAny(Current(owner.machine)) && InForceIfAny(Current(owner.machine), owner.revocations)
    ensures forall topic: Topic, o: Stamp, at: nat :: Satisfies(owner, topic, o, at) ==> owner.RestsOnLater(topic, at)
    ensures owner.StaysOrSuperseded()
  {
    hide Withdrawn, SupersededIn, MetadataOwner.Sound, MetadataOwner.Synced, MetadataOwner.RestsOnLater, Satisfies,
      CoherentIfAny, InForceIfAny;
    done := 0;
    while done < |steps|
      invariant owner.Valid() && old(owner.log) <= owner.log && done <= |steps|
      invariant |owner.log| >= |old(owner.log)| + done
      invariant owner.StaysOrSuperseded()
    {
      ghost var sent := owner.log;
      var ok := Perform(owner, steps[done]);
      SupersededStays(sent, owner.log);
      if !ok {
        AllFresh(owner);
        return;
      }
      done := done + 1;
    }
    AllFresh(owner);
  }

  lemma AllFresh(owner: MetadataOwner)
    requires owner.Sound()
    ensures CoherentIfAny(Current(owner.machine)) && InForceIfAny(Current(owner.machine), owner.revocations)
    ensures forall topic: Topic, o: Stamp, at: nat :: Satisfies(owner, topic, o, at) ==> owner.RestsOnLater(topic, at)
  {
    forall topic: Topic, o: Stamp, at: nat | Satisfies(owner, topic, o, at) ensures owner.RestsOnLater(topic, at) {
      owner.ViewIsFresh(topic, o, at);
    }
  }
}
