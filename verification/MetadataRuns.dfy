/** Coherence of snapshots over every sequence of responses, and the topic views taken from them. */
module MetadataRuns {
  import opened Common
  import opened Requests
  import opened Filters
  import opened Sorting
  import opened Metadata

  /** An accepted topic response keeps the snapshot coherent. */
  lemma TopicMergeCoherent(response: Response, p: Provenance, topic: Topic, brokers: seq<Broker>, controller: Option<Broker>,
                           current: Option<Snapshot>, limits: Limits)
    requires CoherentIfAny(current)
    ensures var r := AssembleTopic(response, p, topic, brokers, controller, current, limits);
      r.Ok? ==> Coherent(r.value)
  {
    hide AssembleTopic, PartitionFacts, FindCount, Climbs;
    var r := AssembleTopic(response, p, topic, brokers, controller, current, limits);
    if r.Ok? {
      TopicMerge(response, p, topic, brokers, controller, current, limits);
      FactsAgree(response, topic, p.operation, p.evidence, limits);
      var facts := PartitionFacts(response, topic, p.operation, p.evidence, limits).value;
      forall l | l in r.value.leaders
        ensures FindCount(r.value.counts, l.topic).Some? && l.partition < FindCount(r.value.counts, l.topic).value.count
      {
        var c := if l in facts.leaders then facts.count.value else FindCount(CountsOf(current), l.topic).value;
        assert c in r.value.counts && c.topic == l.topic && l.partition < c.count;
        FoundIsOnly(r.value.counts, c);
      }
    }
  }

  lemma ClusterMerge(response: Response, p: Provenance, current: Option<Snapshot>, limits: Limits)
    requires p.query.Cluster?
    ensures var r := Assemble(response, p, current, limits);
      r.Ok? ==> Coherent(r.value) && r.value.leaders == [] && multiset(r.value.counts) == multiset(CountsOf(current))
  {
    hide CountSet, Directory;
  }

  /** Every accepted response leaves a coherent snapshot. */
  lemma AssembleCoherent(response: Response, p: Provenance, current: Option<Snapshot>, limits: Limits)
    requires CoherentIfAny(current)
    ensures var r := Assemble(response, p, current, limits);
      r.Ok? ==> Coherent(r.value) && r.value.generation == p.generation && r.value.evidence == p.evidence
  {
    hide AssembleTopic, Directory, CountSet, Coherent;
    if p.query.Cluster? {
      ClusterMerge(response, p, current, limits);
    } else {
      var brokers := Directory(response, limits);
      if brokers.Ok? {
        var controller := if response.controllerId < 0 then None else Some(response.controllerId as nat);
        TopicMergeCoherent(response, p, p.query.topic, brokers.value, controller, current, limits);
        TopicMerge(response, p, p.query.topic, brokers.value, controller, current, limits);
      }
    }
  }

  lemma SameCount(counts: seq<TopicCount>, others: seq<TopicCount>, topic: Topic)
    requires Climbs(CountRank, counts) && Climbs(CountRank, others)
    requires forall c: TopicCount :: c.topic == topic ==> (c in counts <==> c in others)
    ensures FindCount(counts, topic) == FindCount(others, topic)
  {
    hide FindCount;
    var a, b := FindCount(counts, topic), FindCount(others, topic);
    if b.Some? {
      FoundIsOnly(counts, b.value);
    }
    if a.Some? {
      FoundIsOnly(others, a.value);
    }
  }

  /**
   * A response about one topic changes no other topic's count, keeps another topic's leader exactly when
   * its broker is still a member, and its own facts carry its own evidence. A cluster response keeps all counts.
   */
  lemma MergeTouchesOnlyItsTopic(response: Response, p: Provenance, current: Option<Snapshot>, limits: Limits, other: Topic)
    requires CoherentIfAny(current) && p.query != TopicQuery(other)
    ensures var r := Assemble(response, p, current, limits);
      r.Ok? ==>
        && FindCount(r.value.counts, other) == FindCount(CountsOf(current), other)
        && (forall l: PartitionLeader :: l.topic == other ==>
              (l in r.value.leaders <==> l in LeadersOf(current) && p.query.TopicQuery? && l.broker in r.value.brokers))
  {
    hide AssembleTopic, Directory, CountSet, FindCount, PartitionFacts;
    AssembleCoherent(response, p, current, limits);
    var r := Assemble(response, p, current, limits);
    if r.Ok? {
      if p.query.Cluster? {
        ClusterMerge(response, p, current, limits);
        SameMembers(r.value.counts, CountsOf(current));
      } else {
        var controller := if response.controllerId < 0 then None else Some(response.controllerId as nat);
        TopicMerge(response, p, p.query.topic, Directory(response, limits).value, controller, current, limits);
        FactsAgree(response, p.query.topic, p.operation, p.evidence, limits);
      }
      SameCount(r.value.counts, CountsOf(current), other);
    }
  }

  /**
   * After an accepted topic response the topic's count is the number of partitions that response lists, with its
   * identity and evidence, or gone if it reports an error; and its leaders are exactly those they name.
   */
  lemma MergeStampsItsTopic(response: Response, p: Provenance, current: Option<Snapshot>, limits: Limits)
    requires CoherentIfAny(current) && p.query.TopicQuery?
    ensures var r := Assemble(response, p, current, limits);
      r.Ok? ==>
        && Acceptable(response, p.query.topic, limits)
        && var topic := response.topics[0];
          && FindCount(r.value.counts, p.query.topic) ==
             (if topic.errorCode == 0 then Some(TopicCount(p.query.topic, topic.topicId, |topic.partitions|, p.evidence)) else None)
          && forall l: PartitionLeader :: l.topic == p.query.topic ==>
               (l in r.value.leaders <==> LedBy(topic, l, p.query.topic, p.operation, p.evidence))
  {
    hide AssembleTopic, Directory, CountSet, FindCount, PartitionFacts, LedBy, Acceptable;
    var r := Assemble(response, p, current, limits);
    if r.Ok? {
      var controller := if response.controllerId < 0 then None else Some(response.controllerId as nat);
      TopicMerge(response, p, p.query.topic, Directory(response, limits).value, controller, current, limits);
      FactsExact(response, p.query.topic, p.operation, p.evidence, limits);
      OnlyOwnCount(response, p, current, limits);
    }
  }

  lemma OnlyOwnCount(response: Response, p: Provenance, current: Option<Snapshot>, limits: Limits)
    requires CoherentIfAny(current) && p.query.TopicQuery? && Assemble(response, p, current, limits).Ok?
    ensures var facts := PartitionFacts(response, p.query.topic, p.operation, p.evidence, limits);
      facts.Ok? && FindCount(Assemble(response, p, current, limits).value.counts, p.query.topic) == facts.value.count
  {
    hide AssembleTopic, Directory, CountSet, FindCount, PartitionFacts;
    var r := Assemble(response, p, current, limits);
    var controller := if response.controllerId < 0 then None else Some(response.controllerId as nat);
    TopicMerge(response, p, p.query.topic, Directory(response, limits).value, controller, current, limits);
    FactsAgree(response, p.query.topic, p.operation, p.evidence, limits);
    var facts := PartitionFacts(response, p.query.topic, p.operation, p.evidence, limits).value;
    if facts.count.Some? {
      FoundIsOnly(r.value.counts, facts.count.value);
    }
  }

  /** An accepted response names the brokers and the controller of the snapshot. */
  lemma MergeTakesMembership(response: Response, p: Provenance, current: Option<Snapshot>, limits: Limits)
    ensures var r := Assemble(response, p, current, limits);
      r.Ok? ==>
        && response.errorCode == 0 && response.controllerId >= -1
        && r.value.generation == p.generation && r.value.evidence == p.evidence
        && (forall b: Broker :: b in r.value.brokers <==> Advertises(response.brokers, b))
        && (if response.controllerId == -1 then r.value.controller.None?
            else r.value.controller.Some? && r.value.controller.value == response.controllerId)
        && (p.query.Cluster? ==> r.value.leaders == [] && multiset(r.value.counts) == multiset(CountsOf(current)))
  {
    hide AssembleTopic, Directory, CountSet, PartitionFacts, Advertises, Climbs, FindCount;
    DirectoryExact(response, limits);
    var r := Assemble(response, p, current, limits);
    if r.Ok? && p.query.TopicQuery? {
      var controller := if response.controllerId < 0 then None else Some(response.controllerId as nat);
      TopicMerge(response, p, p.query.topic, Directory(response, limits).value, controller, current, limits);
    }
  }

  /** Brokers and controller of a response, whatever it was asked for. */
  ghost predicate MembersAcceptable(response: Response, limits: Limits) {
    && response.errorCode == 0 && response.controllerId >= -1
    && |response.brokers| <= limits.maxBrokers
    && (forall i :: 0 <= i < |response.brokers| ==>
          response.brokers[i].id >= 0 && response.brokers[i].host && 1 <= response.brokers[i].port <= 0xFFFF)
    && (forall i, j :: 0 <= i < j < |response.brokers| ==> response.brokers[i].id != response.brokers[j].id)
    && (response.controllerId >= 0 ==> Advertises(response.brokers, response.controllerId))
  }

  /** The leaders of other topics that stay when `topic` is refreshed. */
  ghost function Staying(response: Response, current: Option<Snapshot>, topic: Topic): set<PartitionLeader> {
    set l | l in LeadersOf(current) && l.topic != topic && Advertises(response.brokers, l.broker)
  }

  ghost function Elements<T>(s: seq<T>): set<T> { set x | x in s }

  lemma {:induction false} Cardinality<T>(rank: T -> Rank, s: seq<T>)
    requires DistinctRanks(rank, s)
    ensures |Elements(s)| == |s|
  {
    if s == [] {
      assert Elements(s) == {};
    } else {
      Cardinality(rank, s[1..]);
      assert s == [s[0]] + s[1..];
      assert Elements(s) == {s[0]} + Elements(s[1..]);
      assert s[0] !in s[1..] by {
        forall i | 0 <= i < |s[1..]| ensures s[1..][i] != s[0] {
          assert rank(s[0]) != rank(s[i + 1]);
        }
      }
    }
  }

  /** A cluster response is accepted exactly when its members are and the counts kept still fit. */
  lemma ClusterAccepted(response: Response, p: Provenance, current: Option<Snapshot>, limits: Limits)
    requires CoherentIfAny(current) && p.query.Cluster?
    ensures Assemble(response, p, current, limits).Ok? <==>
      MembersAcceptable(response, limits) && |CountsOf(current)| <= limits.maxTopics
  {
    hide Directory, Advertises, Below, AssembleTopic, PartitionFacts, FindCount;
    DirectoryExact(response, limits);
    assert DistinctRanks(CountRank, CountsOf(current)) by { ClimbingDistinct(CountRank, CountsOf(current)); }
  }

  lemma NoCountsClimb()
    ensures Climbs(CountRank, [])
  {
  }

  lemma ClimbingDistinct<T>(rank: T -> Rank, s: seq<T>)
    requires Climbs(rank, s)
    ensures DistinctRanks(rank, s)
  {
    forall i, j | 0 <= i < j < |s| ensures rank(s[i]) != rank(s[j]) {
      assert Below(rank(s[i]), rank(s[j]));
    }
  }

  /** The leaders an accepted answer names. */
  ghost function OwnLeaders(response: Response, p: Provenance, limits: Limits): seq<PartitionLeader>
    requires p.query.TopicQuery?
  {
    var facts := PartitionFacts(response, p.query.topic, p.operation, p.evidence, limits);
    if facts.Ok? then facts.value.leaders else []
  }

  /**
   * A topic response is accepted exactly when its members and its facts are, every leader it names is a member, and
   * what it names fits together with what stays of other topics.
   */
  lemma TopicAccepted(response: Response, p: Provenance, current: Option<Snapshot>, limits: Limits)
    requires CoherentIfAny(current) && p.query.TopicQuery?
    ensures Assemble(response, p, current, limits).Ok? <==>
      && MembersAcceptable(response, limits) && Acceptable(response, p.query.topic, limits)
      && var own := Elements(OwnLeaders(response, p, limits));
        var others := set c | c in CountsOf(current) && c.topic != p.query.topic;
        var all := Staying(response, current, p.query.topic) + own;
        && (forall l :: l in own ==> Advertises(response.brokers, l.broker))
        && |all| <= limits.maxPartitions && |set l | l in all :: l.topic| <= limits.maxTopics
        && |others| + (if response.topics[0].errorCode == 0 then 1 else 0) <= limits.maxTopics
  {
    hide Directory, Advertises, PartitionFacts, Acceptable, AssembleTopic, Keep, FindCount, Climbs, Staying;
    DirectoryExact(response, limits);
    FactsExact(response, p.query.topic, p.operation, p.evidence, limits);
    var brokers, facts := Directory(response, limits), PartitionFacts(response, p.query.topic, p.operation, p.evidence, limits);
    var controller := if response.controllerId < 0 then None else Some(response.controllerId as nat);
    if brokers.Ok? && facts.Ok? {
      MergedLeaders(response, p, current, limits);
      CountsMerged(response, p, current, limits);
      TopicJoined(response, p, p.query.topic, brokers.value, controller, current, limits);
    } else if brokers.Ok? {
      assert AssembleTopic(response, p, p.query.topic, brokers.value, controller, current, limits).Err? by {
        NoFactsNoMerge(response, p, p.query.topic, brokers.value, controller, current, limits);
      }
    }
  }

  lemma NoFactsNoMerge(response: Response, p: Provenance, topic: Topic, brokers: seq<Broker>, controller: Option<Broker>,
                       current: Option<Snapshot>, limits: Limits)
    requires PartitionFacts(response, topic, p.operation, p.evidence, limits).Err?
    ensures AssembleTopic(response, p, topic, brokers, controller, current, limits).Err?
  {
    hide PartitionFacts;
  }

  /** The merge succeeds exactly when both sets do and everything in them is a member. */
  lemma TopicJoined(response: Response, p: Provenance, topic: Topic, brokers: seq<Broker>, controller: Option<Broker>,
                    current: Option<Snapshot>, limits: Limits)
    requires PartitionFacts(response, topic, p.operation, p.evidence, limits).Ok?
    ensures var facts := PartitionFacts(response, topic, p.operation, p.evidence, limits).value;
      var leaders := Keep(LedElsewhere(topic, brokers), LeadersOf(current)) + facts.leaders;
      var counts := Keep(OfOthers(topic), CountsOf(current)) + OptionSeq(facts.count);
      AssembleTopic(response, p, topic, brokers, controller, current, limits).Ok? <==>
        && |leaders| <= limits.maxPartitions && DistinctRanks(LeaderRank, leaders) && |TopicSet(leaders)| <= limits.maxTopics
        && |counts| <= limits.maxTopics && DistinctRanks(CountRank, counts)
        && (controller.Some? ==> controller.value in brokers)
        && forall l :: l in leaders ==> l.broker in brokers
  {
    hide PartitionFacts, Keep, LeaderSet, CountSet, Climbs, DistinctRanks, TopicSet;
    var facts := PartitionFacts(response, topic, p.operation, p.evidence, limits).value;
    var leaders := Keep(LedElsewhere(topic, brokers), LeadersOf(current)) + facts.leaders;
    if LeaderSet(leaders, limits).Ok? {
      SameMembers(LeaderSet(leaders, limits).value, leaders);
    }
  }

  /** Two lists without repetition and without a common rank are together a set of as many elements. */
  lemma JoinedDistinct<T>(rank: T -> Rank, a: seq<T>, b: seq<T>)
    requires DistinctRanks(rank, a) && DistinctRanks(rank, b)
    requires forall i, j :: 0 <= i < |a| && 0 <= j < |b| ==> rank(a[i]) != rank(b[j])
    ensures DistinctRanks(rank, a + b) && |a + b| == |Elements(a) + Elements(b)|
  {
    forall i, j | 0 <= i < j < |a + b| ensures rank((a + b)[i]) != rank((a + b)[j]) {
    }
    Cardinality(rank, a + b);
    assert Elements(a + b) == Elements(a) + Elements(b);
  }

  lemma MergedLeaders(response: Response, p: Provenance, current: Option<Snapshot>, limits: Limits)
    requires CoherentIfAny(current) && p.query.TopicQuery? && Directory(response, limits).Ok?
    requires PartitionFacts(response, p.query.topic, p.operation, p.evidence, limits).Ok?
    ensures var own, brokers := OwnLeaders(response, p, limits), Directory(response, limits).value;
      var kept := Keep(LedElsewhere(p.query.topic, brokers), LeadersOf(current));
      var all := Staying(response, current, p.query.topic) + Elements(own);
      && DistinctRanks(LeaderRank, kept + own) && |kept + own| == |all|
      && TopicSet(kept + own) == (set l | l in all :: l.topic)
      && ((forall l :: l in kept + own ==> l.broker in brokers) <==>
            forall l :: l in Elements(own) ==> Advertises(response.brokers, l.broker))
  {
    hide Directory, Advertises, PartitionFacts, Keep, FindCount, Climbs, DistinctRanks;
    var own, brokers := OwnLeaders(response, p, limits), Directory(response, limits).value;
    var kept := Keep(LedElsewhere(p.query.topic, brokers), LeadersOf(current));
    DirectoryExact(response, limits);
    KeptLeaders(response, p.query.topic, brokers, current);
    OwnApart(response, p, limits);
    forall i, j | 0 <= i < |kept| && 0 <= j < |own| ensures LeaderRank(kept[i]) != LeaderRank(own[j]) {
      assert kept[i] in kept && own[j] in own;
    }
    JoinedDistinct(LeaderRank, kept, own);
    JoinedTopics(kept, own);
    assert forall l :: l in kept + own <==> l in kept || l in own;
  }

  lemma JoinedTopics(a: seq<PartitionLeader>, b: seq<PartitionLeader>)
    ensures TopicSet(a + b) == set l | l in Elements(a) + Elements(b) :: l.topic
  {
    assert forall l :: l in a + b <==> l in Elements(a) + Elements(b);
  }

  lemma OwnApart(response: Response, p: Provenance, limits: Limits)
    requires p.query.TopicQuery?
    ensures DistinctRanks(LeaderRank, OwnLeaders(response, p, limits))
    ensures forall l :: l in OwnLeaders(response, p, limits) ==> l.topic == p.query.topic
  {
    hide PartitionFacts, Climbs;
    FactsExact(response, p.query.topic, p.operation, p.evidence, limits);
    FactsAgree(response, p.query.topic, p.operation, p.evidence, limits);
    NothingClimbs();
    ClimbingDistinct(LeaderRank, OwnLeaders(response, p, limits));
  }

  lemma KeptLeaders(response: Response, topic: Topic, brokers: seq<Broker>, current: Option<Snapshot>)
    requires CoherentIfAny(current) && forall b: Broker :: b in brokers <==> Advertises(response.brokers, b)
    ensures var kept := Keep(LedElsewhere(topic, brokers), LeadersOf(current));
      && DistinctRanks(LeaderRank, kept) && Elements(kept) == Staying(response, current, topic)
      && forall l :: l in kept ==> l.topic != topic && l.broker in brokers
  {
    hide Advertises, Keep, FindCount, Climbs;
    KeepMembers(LedElsewhere(topic, brokers), LeadersOf(current));
    if current.None? {
      NothingClimbs();
    }
    KeepClimbs(LeaderRank, LedElsewhere(topic, brokers), LeadersOf(current));
    ClimbingDistinct(LeaderRank, Keep(LedElsewhere(topic, brokers), LeadersOf(current)));
  }

  lemma CountsMerged(response: Response, p: Provenance, current: Option<Snapshot>, limits: Limits)
    requires CoherentIfAny(current) && p.query.TopicQuery?
    requires PartitionFacts(response, p.query.topic, p.operation, p.evidence, limits).Ok?
    ensures var count := PartitionFacts(response, p.query.topic, p.operation, p.evidence, limits).value.count;
      var all := Keep(OfOthers(p.query.topic), CountsOf(current)) + OptionSeq(count);
      && DistinctRanks(CountRank, all)
      && |all| == |set c | c in CountsOf(current) && c.topic != p.query.topic| + (if count.Some? then 1 else 0)
  {
    hide PartitionFacts, Keep, FindCount, Below, Climbs;
    FactsAgree(response, p.query.topic, p.operation, p.evidence, limits);
    var kept := Keep(OfOthers(p.query.topic), CountsOf(current));
    KeepMembers(OfOthers(p.query.topic), CountsOf(current));
    if current.None? {
      NoCountsClimb();
    }
    KeepClimbs(CountRank, OfOthers(p.query.topic), CountsOf(current));
    ClimbingDistinct(CountRank, kept);
    Cardinality(CountRank, kept);
    assert Elements(kept) == set c | c in CountsOf(current) && c.topic != p.query.topic;
    forall i | 0 <= i < |kept| ensures kept[i].topic != p.query.topic {
      assert kept[i] in kept;
    }
  }

  // ------------------------------------------------------------------ withdrawn routes

  function NotAt(topic: Topic, partition: nat): PartitionLeader -> bool {
    (l: PartitionLeader) => !(l.topic == topic && l.partition == partition)
  }

  function RevokePartition(s: Snapshot, topic: Topic, partition: nat): Snapshot {
    s.(leaders := Keep(NotAt(topic, partition), s.leaders))
  }

  function RevokeController(s: Snapshot): Snapshot { s.(controller := None) }

  lemma {:induction false} KeptFrom<A>(p: A -> bool, s: seq<A>, i: nat) returns (k: nat)
    requires i < |Keep(p, s)|
    ensures k < |s| && s[k] == Keep(p, s)[i]
  {
    if p(s[0]) && i == 0 {
      k := 0;
    } else {
      k := KeptFrom(p, s[1..], if p(s[0]) then i - 1 else i);
      k := k + 1;
    }
  }

  lemma {:induction false} KeepClimbs<T>(rank: T -> Rank, p: T -> bool, s: seq<T>)
    requires Climbs(rank, s)
    ensures Climbs(rank, Keep(p, s))
  {
    if s != [] {
      KeepClimbs(rank, p, s[1..]);
      var rest := Keep(p, s[1..]);
      forall i | 0 <= i < |rest| ensures Below(rank(s[0]), rank(rest[i])) {
        var k := KeptFrom(p, s[1..], i);
        assert s[k + 1] == rest[i];
      }
    }
  }

  lemma RevokeCoherent(s: Snapshot, topic: Topic, partition: nat)
    requires Coherent(s)
    ensures Coherent(RevokePartition(s, topic, partition)) && Coherent(RevokeController(s))
    ensures forall l :: l in RevokePartition(s, topic, partition).leaders <==>
      l in s.leaders && !(l.topic == topic && l.partition == partition)
  {
    hide FindCount, Keep;
    KeepClimbs(LeaderRank, NotAt(topic, partition), s.leaders);
    KeepMembers(NotAt(topic, partition), s.leaders);
  }

  // ------------------------------------------------------------------ runs

  datatype MetadataEvent =
    | Responded(response: Response, provenance: Provenance)
    | PartitionWithdrawn(topic: Topic, partition: nat)
    | ControllerWithdrawn

  /** A rejected response changes nothing. */
  function After(current: Option<Snapshot>, e: MetadataEvent, limits: Limits): Option<Snapshot> {
    match e
    case Responded(response, p) =>
      var r := Assemble(response, p, current, limits);
      if r.Ok? then Some(r.value) else current
    case PartitionWithdrawn(topic, partition) =>
      if current.None? then None else Some(RevokePartition(current.value, topic, partition))
    case ControllerWithdrawn =>
      if current.None? then None else Some(RevokeController(current.value))
  }

  function RunOf(current: Option<Snapshot>, events: seq<MetadataEvent>, limits: Limits): Option<Snapshot>
    decreases |events|
  {
    if events == [] then current else RunOf(After(current, events[0], limits), events[1..], limits)
  }

  lemma AfterCoherent(current: Option<Snapshot>, e: MetadataEvent, limits: Limits)
    requires CoherentIfAny(current)
    ensures CoherentIfAny(After(current, e, limits))
  {
    hide Assemble, Coherent;
    match e
    case Responded(response, p) => AssembleCoherent(response, p, current, limits);
    case PartitionWithdrawn(topic, partition) =>
      if current.Some? { RevokeCoherent(current.value, topic, partition); }
    case ControllerWithdrawn =>
      if current.Some? { RevokeCoherent(current.value, 0, 0); }
  }

  /** Whatever responses and withdrawals follow each other, the snapshot stays coherent. */
  lemma {:induction false} RunCoherent(current: Option<Snapshot>, events: seq<MetadataEvent>, limits: Limits)
    requires CoherentIfAny(current)
    ensures CoherentIfAny(RunOf(current, events, limits))
    decreases |events|
  {
    if events != [] {
      AfterCoherent(current, events[0], limits);
      RunCoherent(After(current, events[0], limits), events[1..], limits);
    }
  }

  /** A topic's count is carried unchanged through every run of events about other things. */
  lemma {:induction false} RunKeepsCount(current: Option<Snapshot>, events: seq<MetadataEvent>, limits: Limits, topic: Topic)
    requires CoherentIfAny(current)
    requires forall i :: 0 <= i < |events| && events[i].Responded? ==> events[i].provenance.query != TopicQuery(topic)
    ensures FindCount(CountsOf(RunOf(current, events, limits)), topic) == FindCount(CountsOf(current), topic)
    decreases |events|
  {
    hide Assemble, Coherent, FindCount, Keep;
    if events != [] {
      AfterCoherent(current, events[0], limits);
      if events[0].Responded? {
        MergeTouchesOnlyItsTopic(events[0].response, events[0].provenance, current, limits, topic);
      }
      RunKeepsCount(After(current, events[0], limits), events[1..], limits, topic);
    }
  }

  // ------------------------------------------------------------------ topic views

  datatype Available = Available(partition: nat, broker: Broker, epoch: Option<nat>)

  datatype View = View(topic: Topic, topicId: Option<nat>, generation: nat, count: nat, available: seq<Available>)

  datatype ViewResult = Viewed(view: View) | NoView | MalformedMetadata

  function Of(topic: Topic): PartitionLeader -> bool { (l: PartitionLeader) => l.topic == topic }

  function AvailableOf(leaders: seq<PartitionLeader>): (r: seq<Available>)
    ensures |r| == |leaders|
    ensures forall i :: 0 <= i < |leaders| ==> r[i] == Available(leaders[i].partition, leaders[i].broker, leaders[i].epoch)
  {
    seq(|leaders|, i requires 0 <= i < |leaders| => Available(leaders[i].partition, leaders[i].broker, leaders[i].epoch))
  }

  /** A leader of the topic lies outside its count. */
  predicate Outside(leaders: seq<PartitionLeader>, topic: Topic, count: nat) {
    exists i :: 0 <= i < |leaders| && leaders[i].topic == topic && leaders[i].partition >= count
  }

  /** `TopicView::from_snapshot`: malformed exactly when a leader lies outside the count, never for a coherent snapshot. */
  method FromSnapshot(s: Snapshot, topic: Topic) returns (r: ViewResult)
    ensures r.NoView? <==> FindCount(s.counts, topic).None?
    ensures r.MalformedMetadata? <==>
      FindCount(s.counts, topic).Some? && Outside(s.leaders, topic, FindCount(s.counts, topic).value.count)
    ensures r.Viewed? ==>
      && r.view.topic == topic && r.view.generation == s.generation
      && r.view.count == FindCount(s.counts, topic).value.count
      && r.view.topicId == FindCount(s.counts, topic).value.topicId
      && r.view.available == AvailableOf(Keep(Of(topic), s.leaders))
    ensures Coherent(s) ==> !r.MalformedMetadata?
  {
    hide Keep, FindCount;
    var found := FindCount(s.counts, topic);
    if found.None? {
      return NoView;
    }
    if Coherent(s) {
      CoherentIsInside(s, topic);
    }
    var available: seq<Available> := [];
    KeepNone(Of(topic), []);
    for i := 0 to |s.leaders|
      invariant available == AvailableOf(Keep(Of(topic), s.leaders[..i]))
      invariant forall k :: 0 <= k < i && s.leaders[k].topic == topic ==> s.leaders[k].partition < found.value.count
    {
      KeepTake(Of(topic), s.leaders, i);
      var l := s.leaders[i];
      if l.topic == topic {
        if l.partition >= found.value.count {
          return MalformedMetadata;
        }
        available := available + [Available(l.partition, l.broker, l.epoch)];
      }
    }
    assert s.leaders[..|s.leaders|] == s.leaders;
    r := Viewed(View(topic, found.value.topicId, s.generation, found.value.count, available));
  }

  lemma CoherentIsInside(s: Snapshot, topic: Topic)
    requires Coherent(s) && FindCount(s.counts, topic).Some?
    ensures !Outside(s.leaders, topic, FindCount(s.counts, topic).value.count)
  {
    hide FindCount;
    forall i | 0 <= i < |s.leaders| && s.leaders[i].topic == topic
      ensures s.leaders[i].partition < FindCount(s.counts, topic).value.count
    {
      assert s.leaders[i] in s.leaders;
    }
  }

  /** The leaders a view of a coherent snapshot lists: in partition order, all below the count. */
  lemma ViewAscends(s: Snapshot, topic: Topic)
    requires Coherent(s) && FindCount(s.counts, topic).Some?
    ensures var mine := Keep(Of(topic), s.leaders);
      && (forall i :: 0 <= i < |mine| ==> mine[i].partition < FindCount(s.counts, topic).value.count)
      && (forall i, j :: 0 <= i < j < |mine| ==> mine[i].partition < mine[j].partition)
  {
    hide FindCount;
    var mine := Keep(Of(topic), s.leaders);
    KeepClimbs(LeaderRank, Of(topic), s.leaders);
    KeepMembers(Of(topic), s.leaders);
    forall i | 0 <= i < |mine| ensures mine[i].partition < FindCount(s.counts, topic).value.count {
      assert mine[i] in mine;
    }
    forall i, j | 0 <= i < j < |mine| ensures mine[i].partition < mine[j].partition {
      assert Below(LeaderRank(mine[i]), LeaderRank(mine[j]));
    }
  }
}
