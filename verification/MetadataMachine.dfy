/**
 * The deterministic metadata machine of kafka-driver-core: one refresh at a time, queued queries, and
 * routes withdrawn until newer evidence arrives.
 */
module MetadataMachines {
  import opened Common
  import opened Requests
  import opened Filters
  import opened Sorting
  import opened Metadata
  import opened MetadataRuns

  datatype Machine =
    | Empty(next: nat)
    | Refreshing(current: Option<Snapshot>, operation: nat, query: Query, target: nat, queued: seq<Query>)
    | Installed(snapshot: Snapshot)

  function Current(m: Machine): Option<Snapshot> {
    match m
    case Empty(_) => None
    case Refreshing(current, _, _, _, _) => current
    case Installed(snapshot) => Some(snapshot)
  }

  function WithCurrent(m: Machine, s: Snapshot): Machine
    requires Current(m).Some?
  {
    if m.Installed? then Installed(s) else m.(current := Some(s))
  }

  datatype Disposition =
    | Applied | Coalesced | QueryQueued | QueryCapacityReached | GenerationExhausted | IgnoredStale | RejectedRegression

  /** At most one fetch is asked for. */
  datatype Effect = NoEffect | StartFetch(operation: nat, generation: nat, query: Query)

  datatype Transition = Transition(machine: Machine, effect: Effect, disposition: Disposition)

  /** A refresh is for the generation after the one installed. */
  predicate Ahead(m: Machine) {
    m.Refreshing? && m.current.Some? ==> m.target == m.current.value.generation + 1
  }

  function Start(current: Option<Snapshot>, operation: nat, target: nat, query: Query, queued: seq<Query>): Transition {
    Transition(Refreshing(current, operation, query, target, queued), StartFetch(operation, target, query), Applied)
  }

  /** A fetch asked for is the one the machine is now refreshing with. */
  predicate Asks(t: Transition) {
    t.effect.StartFetch? ==>
      && t.machine.Refreshing? && t.machine.operation == t.effect.operation
      && t.machine.target == t.effect.generation && t.machine.query == t.effect.query
  }

  function NextGeneration(g: nat): Option<nat> { if g >= U64_MAX then None else Some(g + 1) }

  /** `resolve` and, with `mustFollow`, `refresh`. */
  function Admit(m: Machine, query: Query, operation: nat, mustFollow: bool, limit: nat): (t: Transition)
    ensures Current(t.machine) == Current(m)
    ensures t.effect.StartFetch? <==> !m.Refreshing? && t.machine.Refreshing?
    ensures m.Refreshing? ==> t.machine.Refreshing? && t.machine.(queued := m.queued) == m
    ensures !m.Refreshing? && !t.effect.StartFetch? ==> t.machine == m && t.disposition.GenerationExhausted?
    ensures Asks(t) && (m.Refreshing? ==> m.queued <= t.machine.queued)
    ensures t.disposition.Applied? ==>
      !m.Refreshing? && t.effect.StartFetch? && t.effect.query == query && t.effect.operation == operation && Ahead(t.machine)
    ensures t.disposition.Coalesced? ==>
      t.machine == m && m.Refreshing? && (query in m.queued || (m.query == query && !mustFollow))
    ensures t.disposition.QueryQueued? ==> m.Refreshing? && t.machine.queued == m.queued + [query]
    ensures t.disposition.QueryCapacityReached? ==>
      t.machine == m && m.Refreshing? && |m.queued| >= limit && query !in m.queued && (m.query == query ==> mustFollow)
    ensures t.disposition.GenerationExhausted? ==> t.machine == m && m.Installed? && m.snapshot.generation >= U64_MAX
    ensures !t.disposition.IgnoredStale? && !t.disposition.RejectedRegression?
  {
    match m
    case Refreshing(_, _, active, _, queued) =>
      if (active == query && !mustFollow) || query in queued then Transition(m, NoEffect, Coalesced)
      else if |queued| >= limit then Transition(m, NoEffect, QueryCapacityReached)
      else Transition(m.(queued := queued + [query]), NoEffect, QueryQueued)
    case Empty(next) => Start(None, operation, next, query, [])
    case Installed(snapshot) =>
      var next := NextGeneration(snapshot.generation);
      if next.None? then Transition(m, NoEffect, GenerationExhausted)
      else Start(Some(snapshot), operation, next.value, query, [])
  }

  /** A newer leader epoch never yields to an older one, nor the same epoch to another broker. */
  predicate Regresses(previous: PartitionLeader, now: PartitionLeader) {
    previous.epoch.Some? && now.epoch.Some?
      && (now.epoch.value < previous.epoch.value || (now.epoch == previous.epoch && now.broker != previous.broker))
  }

  predicate LeadersRegress(previous: seq<PartitionLeader>, now: seq<PartitionLeader>) {
    exists i, j :: 0 <= i < |previous| && 0 <= j < |now|
      && LeaderRank(previous[i]) == LeaderRank(now[j]) && Regresses(previous[i], now[j])
  }

  function Continue(m: Machine, current: Option<Snapshot>, followup: nat, target: nat): Transition
    requires m.Refreshing? && m.queued != []
  {
    Start(current, followup, target, m.queued[0], m.queued[1..])
  }

  function FailRefresh(m: Machine, operation: nat, followup: nat): (t: Transition)
    ensures Current(t.machine) == Current(m)
    ensures t.effect.StartFetch? ==> t.machine.Refreshing?
  {
    if !m.Refreshing? || operation != m.operation then Transition(m, NoEffect, IgnoredStale)
    else if m.queued != [] then Continue(m, m.current, followup, m.target)
    else Transition(if m.current.Some? then Installed(m.current.value) else Empty(m.target), NoEffect, Applied)
  }

  /** A failed refresh uses up no generation: the next one asked for is the same. */
  lemma FailureSparesGeneration(m: Machine, followup: nat, query: Query, operation: nat, mustFollow: bool, limit: nat)
    requires m.Refreshing? && Ahead(m) && m.target <= U64_MAX
    ensures var t := FailRefresh(m, m.operation, followup);
      if m.queued != [] then t.effect == StartFetch(followup, m.target, m.queued[0]) && t.machine.queued == m.queued[1..]
      else t.effect.NoEffect? && Admit(t.machine, query, operation, mustFollow, limit).effect == StartFetch(operation, m.target, query)
  {
  }

  function Succeed(m: Machine, operation: nat, s: Snapshot, followup: nat, rs: Revocations): (t: (Transition, Revocations))
    ensures t.0.effect.StartFetch? ==> t.0.machine.Refreshing?
  {
    if !m.Refreshing? || operation != m.operation || s.generation != m.target then (Transition(m, NoEffect, IgnoredStale), rs)
    else if m.query.TopicQuery? && m.current.Some? && LeadersRegress(m.current.value.leaders, s.leaders) then
      (FailRefresh(m, operation, followup).(disposition := RejectedRegression), rs)
    else
      var (kept, left) := Withdraw(s, rs, m.query);
      if m.queued == [] then (Transition(Installed(kept), NoEffect, Applied), left)
      else
        var next := NextGeneration(kept.generation);
        if next.None? then (Transition(Installed(kept), NoEffect, GenerationExhausted), left)
        else (Continue(m, Some(kept), followup, next.value), left)
  }

  // ------------------------------------------------------------------ withdrawn routes

  datatype Route = Route(topic: Topic, partition: nat, broker: Broker, epoch: Option<nat>)

  datatype Revocation = Revocation(route: Route, requiredAfter: Stamp)

  datatype Revocations = Revocations(controller: Option<(Broker, Stamp)>, partitions: seq<Revocation>)

  predicate Lifts(r: Revocation, query: Query, evidence: Stamp) {
    query == TopicQuery(r.route.topic) && evidence > r.requiredAfter
  }

  function StillRevoked(query: Query, evidence: Stamp): Revocation -> bool {
    (r: Revocation) => !Lifts(r, query, evidence)
  }

  function WithdrawPartitions(s: Snapshot, rs: seq<Revocation>): Snapshot
    decreases |rs|
  {
    if rs == [] then s else WithdrawPartitions(RevokePartition(s, rs[0].route.topic, rs[0].route.partition), rs[1..])
  }

  /** `MetadataRevocations::apply`: newer evidence lifts a withdrawal, anything else keeps it in force. */
  function Withdraw(s: Snapshot, rs: Revocations, query: Query): (Snapshot, Revocations) {
    var lifted := rs.controller.Some? && query.Cluster? && s.evidence > rs.controller.value.1;
    var left := Keep(StillRevoked(query, s.evidence), rs.partitions);
    var kept := if rs.controller.Some? && !lifted then RevokeController(s) else s;
    (WithdrawPartitions(kept, left), Revocations(if lifted then None else rs.controller, left))
  }

  /** No withdrawn route is served. */
  ghost predicate InForce(s: Snapshot, rs: Revocations) {
    && (rs.controller.Some? ==> s.controller.None?)
    && (forall i, l :: 0 <= i < |rs.partitions| && l in s.leaders ==>
          !(l.topic == rs.partitions[i].route.topic && l.partition == rs.partitions[i].route.partition))
  }

  ghost predicate InForceIfAny(current: Option<Snapshot>, rs: Revocations) { current.Some? ==> InForce(current.value, rs) }

  lemma {:induction false} WithdrawnPartitions(s: Snapshot, rs: seq<Revocation>)
    requires Coherent(s)
    ensures var w := WithdrawPartitions(s, rs);
      && Coherent(w) && w == s.(leaders := w.leaders)
      && (forall l :: l in w.leaders <==> l in s.leaders && forall i :: 0 <= i < |rs| ==>
            !(l.topic == rs[i].route.topic && l.partition == rs[i].route.partition))
    decreases |rs|
  {
    hide Coherent, RevokePartition, Keep;
    if rs != [] {
      RevokeCoherent(s, rs[0].route.topic, rs[0].route.partition);
      RevokeChangesLeaders(s, rs[0].route.topic, rs[0].route.partition);
      WithdrawnPartitions(RevokePartition(s, rs[0].route.topic, rs[0].route.partition), rs[1..]);
      assert rs == [rs[0]] + rs[1..];
    }
  }

  lemma NotAmong(l: PartitionLeader, rs: seq<Revocation>)
    ensures (forall r :: r in rs ==> LeaderRank(l) != (r.route.topic, r.route.partition)) <==>
      forall i :: 0 <= i < |rs| ==> !(l.topic == rs[i].route.topic && l.partition == rs[i].route.partition)
  {
    if forall r :: r in rs ==> LeaderRank(l) != (r.route.topic, r.route.partition) {
      forall i | 0 <= i < |rs| ensures !(l.topic == rs[i].route.topic && l.partition == rs[i].route.partition) {
        assert rs[i] in rs;
      }
    }
  }

  lemma RevokeChangesLeaders(s: Snapshot, topic: Topic, partition: nat)
    ensures RevokePartition(s, topic, partition) == s.(leaders := RevokePartition(s, topic, partition).leaders)
  {
  }

  /** The withdrawals lifted are exactly those an answer to `query` supersedes: about their route, and newer. */
  ghost predicate LiftedBy(rs: Revocations, left: Revocations, query: Query, evidence: Stamp) {
    && (forall r :: r in left.partitions <==>
          r in rs.partitions && !(query == TopicQuery(r.route.topic) && evidence > r.requiredAfter))
    && left.controller ==
       (if rs.controller.Some? && query == Cluster && evidence > rs.controller.value.1 then None else rs.controller)
  }

  /** `kept` is the answer `s` with nothing withheld but the routes that stay withdrawn. */
  ghost predicate ShownAs(s: Snapshot, left: Revocations, kept: Snapshot) {
    && kept == s.(controller := kept.controller, leaders := kept.leaders)
    && kept.controller == (if left.controller.Some? then None else s.controller)
    && (forall l :: l in kept.leaders <==>
          l in s.leaders && forall r :: r in left.partitions ==> LeaderRank(l) != (r.route.topic, r.route.partition))
  }

  /**
   * Withdrawal keeps coherence and counts. A withdrawal is lifted exactly by an answer about its topic, or about the
   * cluster for the controller, that is newer than the failure; what is left in force is not served, and nothing
   * else of the answer is withheld.
   */
  lemma WithdrawKeeps(s: Snapshot, rs: Revocations, query: Query)
    requires Coherent(s)
    ensures var (kept, left) := Withdraw(s, rs, query);
      Coherent(kept) && InForce(kept, left) && LiftedBy(rs, left, query, s.evidence) && ShownAs(s, left, kept)
  {
    hide Coherent, Keep, WithdrawPartitions;
    var lifted := rs.controller.Some? && query.Cluster? && s.evidence > rs.controller.value.1;
    var left := Keep(StillRevoked(query, s.evidence), rs.partitions);
    RevokeCoherent(s, 0, 0);
    KeepMembers(StillRevoked(query, s.evidence), rs.partitions);
    var base := if rs.controller.Some? && !lifted then RevokeController(s) else s;
    WithdrawnPartitions(base, left);
    forall l ensures l in WithdrawPartitions(base, left).leaders <==>
        l in s.leaders && forall r :: r in left ==> LeaderRank(l) != (r.route.topic, r.route.partition)
    {
      NotAmong(l, left);
    }
  }

  // ------------------------------------------------------------------ invalidation

  predicate Pending(rs: seq<Revocation>, route: Route) { exists i :: 0 <= i < |rs| && rs[i].route == route }

  predicate Requires(rs: seq<Revocation>, route: Route, observed: Stamp) {
    exists i :: 0 <= i < |rs| && rs[i].route == route && observed > rs[i].requiredAfter
  }

  function Later(a: Stamp, b: Stamp): Stamp { if a < b then b else a }

  /** One revocation for each route, requiring evidence after the latest failure observed. */
  function Revoked(rs: seq<Revocation>, route: Route, observed: Stamp): seq<Revocation> {
    if rs == [] then [Revocation(route, observed)]
    else if rs[0].route == route then [Revocation(route, Later(rs[0].requiredAfter, observed))] + rs[1..]
    else [rs[0]] + Revoked(rs[1..], route, observed)
  }

  /** The route is withdrawn until evidence newer than the failure arrives. */
  predicate RevokedAfter(rs: seq<Revocation>, route: Route, observed: Stamp) {
    exists i :: 0 <= i < |rs| && rs[i].route == route && observed <= rs[i].requiredAfter
  }

  lemma Deeper(first: Revocation, rs: seq<Revocation>, route: Route, observed: Stamp)
    requires RevokedAfter(rs, route, observed)
    ensures RevokedAfter([first] + rs, route, observed)
  {
    var i :| 0 <= i < |rs| && rs[i].route == route && observed <= rs[i].requiredAfter;
    assert ([first] + rs)[i + 1] == rs[i];
  }

  lemma {:induction false} RevocationStays(rs: seq<Revocation>, route: Route, observed: Stamp, i: nat)
    requires i < |rs|
    ensures RevokedAfter(Revoked(rs, route, observed), rs[i].route, rs[i].requiredAfter)
    decreases |rs|
  {
    var all := Revoked(rs, route, observed);
    if rs[0].route == route || i == 0 {
      assert all[i].route == rs[i].route && rs[i].requiredAfter <= all[i].requiredAfter;
    } else {
      RevocationStays(rs[1..], route, observed, i - 1);
      Deeper(rs[0], Revoked(rs[1..], route, observed), rs[i].route, rs[i].requiredAfter);
    }
  }

  lemma {:induction false} RevokedRoutes(rs: seq<Revocation>, route: Route, observed: Stamp)
    ensures forall r :: r in Revoked(rs, route, observed) ==> r.route == route || r in rs
    ensures RevokedAfter(Revoked(rs, route, observed), route, observed)
    ensures forall r :: r in rs ==> RevokedAfter(Revoked(rs, route, observed), r.route, r.requiredAfter)
  {
    forall r | r in rs ensures RevokedAfter(Revoked(rs, route, observed), r.route, r.requiredAfter) {
      var i :| 0 <= i < |rs| && rs[i] == r;
      RevocationStays(rs, route, observed, i);
    }
    if rs == [] || rs[0].route == route {
      assert Revoked(rs, route, observed)[0].route == route;
    } else {
      RevokedRoutes(rs[1..], route, observed);
      Deeper(rs[0], Revoked(rs[1..], route, observed), route, observed);
    }
  }

  /** The leader now known for a partition. */
  function FindLeader(leaders: seq<PartitionLeader>, topic: Topic, partition: nat): (r: Option<PartitionLeader>)
    ensures r.Some? ==> r.value in leaders && LeaderRank(r.value) == (topic, partition)
  {
    if leaders == [] then None
    else if LeaderRank(leaders[0]) == (topic, partition) then Some(leaders[0])
    else FindLeader(leaders[1..], topic, partition)
  }

  predicate Serves(s: Snapshot, route: Route, observed: Stamp) {
    var l := FindLeader(s.leaders, route.topic, route.partition);
    l.Some? && l.value.broker == route.broker && l.value.epoch == route.epoch && l.value.evidence <= observed
  }

  /** `invalidate_partition`: a failure seen after the route's evidence withdraws it and asks for newer facts. */
  function InvalidatePartition(m: Machine, rs: Revocations, route: Route, observed: Stamp, operation: nat, limit: nat):
    (Transition, Revocations)
  {
    if Pending(rs.partitions, route) && !Requires(rs.partitions, route, observed) then (Transition(m, NoEffect, Coalesced), rs)
    else if !Pending(rs.partitions, route) && (Current(m).None? || !Serves(Current(m).value, route, observed)) then
      (Transition(m, NoEffect, IgnoredStale), rs)
    else
      var t := Admit(m, TopicQuery(route.topic), operation, true, limit);
      if t.disposition.QueryCapacityReached? then (t, rs)
      else
        var machine :=
          if Current(t.machine).Some?
          then WithCurrent(t.machine, RevokePartition(Current(t.machine).value, route.topic, route.partition))
          else t.machine;
        (t.(machine := machine), rs.(partitions := Revoked(rs.partitions, route, observed)))
  }

  /** `invalidate`, for the controller's route. */
  function InvalidateController(m: Machine, rs: Revocations, broker: Broker, observed: Stamp, operation: nat, limit: nat):
    (Transition, Revocations)
  {
    var pending := rs.controller.Some? && rs.controller.value.0 == broker;
    if pending && observed <= rs.controller.value.1 then (Transition(m, NoEffect, Coalesced), rs)
    else if !pending
         && (Current(m).None? || Current(m).value.controller != Some(broker) || Current(m).value.evidence > observed) then
      (Transition(m, NoEffect, IgnoredStale), rs)
    else
      var t := Admit(m, Cluster, operation, true, limit);
      if t.disposition.QueryCapacityReached? then (t, rs)
      else
        var machine :=
          if Current(t.machine).Some? then WithCurrent(t.machine, RevokeController(Current(t.machine).value)) else t.machine;
        (t.(machine := machine),
         rs.(controller := Some((broker, if pending then Later(rs.controller.value.1, observed) else observed))))
  }

  /** The dispositions under which a failed route is left as it was. */
  predicate Refuses(d: Disposition) { d.IgnoredStale? || d.QueryCapacityReached? }

  /** The query follows everything that happened before: it is waiting its turn, or is the fetch just asked for. */
  predicate FollowUp(t: Transition, query: Query) {
    && t.machine.Refreshing?
    && (query in t.machine.queued || (t.effect.StartFetch? && t.effect.query == query))
  }

  lemma StandsAsItIs(rs: seq<Revocation>)
    ensures forall r :: r in rs ==> RevokedAfter(rs, r.route, r.requiredAfter)
  {
  }

  /** A route is served exactly while its leader, at its epoch, is known by no newer evidence than the failure. */
  lemma ServesExact(s: Snapshot, route: Route, observed: Stamp)
    requires Climbs(LeaderRank, s.leaders)
    ensures Serves(s, route, observed) <==>
      exists l :: l in s.leaders && l.topic == route.topic && l.partition == route.partition && l.broker == route.broker
        && l.epoch == route.epoch && l.evidence <= observed
  {
    forall l | l in s.leaders && LeaderRank(l) == (route.topic, route.partition)
      ensures FindLeader(s.leaders, route.topic, route.partition) == Some(l)
    {
      LeaderFound(s.leaders, l);
    }
  }

  lemma {:induction false} LeaderFound(leaders: seq<PartitionLeader>, l: PartitionLeader)
    requires Climbs(LeaderRank, leaders) && l in leaders
    ensures FindLeader(leaders, l.topic, l.partition) == Some(l)
  {
    var i :| 0 <= i < |leaders| && leaders[i] == l;
    if i > 0 {
      assert Below(LeaderRank(leaders[0]), LeaderRank(leaders[i]));
      assert leaders[1..][i - 1] == l;
      LeaderFound(leaders[1..], l);
    }
  }

  /** The epochs of two answers about one partition: never back, and within an epoch never to another broker. */
  predicate Advances(previous: PartitionLeader, now: PartitionLeader) {
    match (previous.epoch, now.epoch)
    case (Some(before), Some(after)) => before < after || (before == after && previous.broker == now.broker)
    case _ => true
  }

  ghost predicate AllAdvance(previous: seq<PartitionLeader>, now: seq<PartitionLeader>) {
    forall l, k :: l in previous && k in now && LeaderRank(l) == LeaderRank(k) ==> Advances(l, k)
  }

  /** An answer about a topic is refused exactly when some leader in it would go back. */
  lemma RegressionExact(previous: seq<PartitionLeader>, now: seq<PartitionLeader>)
    ensures LeadersRegress(previous, now) <==> !AllAdvance(previous, now)
  {
    if LeadersRegress(previous, now) {
      var i, j :| 0 <= i < |previous| && 0 <= j < |now|
        && LeaderRank(previous[i]) == LeaderRank(now[j]) && Regresses(previous[i], now[j]);
      assert previous[i] in previous && now[j] in now && !Advances(previous[i], now[j]);
    }
    if !AllAdvance(previous, now) {
      var l, k :| l in previous && k in now && LeaderRank(l) == LeaderRank(k) && !Advances(l, k);
      var i :| 0 <= i < |previous| && previous[i] == l;
      var j :| 0 <= j < |now| && now[j] == k;
      assert Regresses(previous[i], now[j]);
    }
  }

  /** What every step of the machine keeps: coherence, withdrawals in force, and the counts. */
  ghost predicate Sane(m: Machine, rs: Revocations) {
    CoherentIfAny(Current(m)) && InForceIfAny(Current(m), rs) && Ahead(m)
  }

  lemma KnownAlready(rs: seq<Revocation>, route: Route, observed: Stamp)
    ensures Pending(rs, route) && !Requires(rs, route, observed) ==> RevokedAfter(rs, route, observed)
  {
  }

  lemma PartitionInvalidated(m: Machine, rs: Revocations, route: Route, observed: Stamp, operation: nat, limit: nat)
    requires Sane(m, rs)
    ensures var (t, left) := InvalidatePartition(m, rs, route, observed, operation, limit);
      && Sane(t.machine, left) && CountsOf(Current(t.machine)) == CountsOf(Current(m))
      && (t.effect.StartFetch? <==> !m.Refreshing? && t.machine.Refreshing?)
      && (m.Refreshing? ==>
            && t.machine.Refreshing? && t.machine.(queued := m.queued, current := m.current) == m
            && forall q :: q in m.queued ==> q in t.machine.queued)
      && Asks(t)
      && (if Refuses(t.disposition) then t.machine == m && left == rs else RevokedAfter(left.partitions, route, observed))
      && (t.disposition.IgnoredStale? <==>
            !Pending(rs.partitions, route) && (Current(m).Some? ==> !Serves(Current(m).value, route, observed)))
      && (Refuses(t.disposition) || t.disposition.GenerationExhausted? || RevokedAfter(rs.partitions, route, observed)
          || FollowUp(t, TopicQuery(route.topic)))
      && (forall r :: r in rs.partitions ==> RevokedAfter(left.partitions, r.route, r.requiredAfter))
      && left.controller == rs.controller
      && Current(t.machine).Some? == Current(m).Some?
      && (Current(m).Some? ==>
            var before, after := Current(m).value, Current(t.machine).value;
            && after == before.(leaders := after.leaders)
            && (forall l :: l in after.leaders ==> l in before.leaders)
            && (forall l :: l in before.leaders && LeaderRank(l) != (route.topic, route.partition) ==> l in after.leaders))
  {
    hide Coherent, RevokePartition, Keep, Serves, Revoked, Pending, Requires;
    KnownAlready(rs.partitions, route, observed);
    RevokedRoutes(rs.partitions, route, observed);
    StandsAsItIs(rs.partitions);
    if Current(m).Some? {
      RevokeCoherent(Current(m).value, route.topic, route.partition);
      RevokeChangesLeaders(Current(m).value, route.topic, route.partition);
    }
  }

  lemma ControllerInvalidated(m: Machine, rs: Revocations, broker: Broker, observed: Stamp, operation: nat, limit: nat)
    requires Sane(m, rs)
    ensures var (t, left) := InvalidateController(m, rs, broker, observed, operation, limit);
      && Sane(t.machine, left) && CountsOf(Current(t.machine)) == CountsOf(Current(m))
      && (t.effect.StartFetch? <==> !m.Refreshing? && t.machine.Refreshing?)
      && (m.Refreshing? ==>
            && t.machine.Refreshing? && t.machine.(queued := m.queued, current := m.current) == m
            && forall q :: q in m.queued ==> q in t.machine.queued)
      && Asks(t)
      && (t.disposition.IgnoredStale? <==>
            && (Current(m).Some? ==> Current(m).value.controller != Some(broker) || Current(m).value.evidence > observed)
            && (rs.controller.Some? ==> rs.controller.value.0 != broker))
      && (if Refuses(t.disposition) then t.machine == m && left == rs
          else left.controller.Some? && left.controller.value.0 == broker && observed <= left.controller.value.1)
      && (Refuses(t.disposition) || t.disposition.GenerationExhausted? || FollowUp(t, Cluster)
          || (rs.controller.Some? && rs.controller.value.0 == broker && observed <= rs.controller.value.1))
      && left.partitions == rs.partitions
      && (rs.controller.Some? ==>
            left.controller.Some? && left.controller.value.0 == rs.controller.value.0 && rs.controller.value.1 <= left.controller.value.1)
      && Current(t.machine).Some? == Current(m).Some?
      && (Current(m).Some? ==> Current(t.machine).value == Current(m).value.(controller := Current(t.machine).value.controller))
  {
    hide Coherent;
    if Current(m).Some? {
      RevokeCoherent(Current(m).value, 0, 0);
    }
  }
}
