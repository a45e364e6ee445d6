/**
 * Assembly of metadata snapshots across responses: src/metadata/snapshot.rs, src/metadata/partition_snapshot.rs
 * and the canonical sets of kafka-driver-core. Topic names are only compared, so they are numbers here.
 */
module Metadata {
  import opened Common
  import opened Requests
  import opened Filters
  import opened Sorting
  import opened PartitionRange

  type Topic = nat

  type Broker = nat

  datatype PartitionLeader = PartitionLeader(
    topic: Topic, partition: nat, broker: Broker, epoch: Option<nat>, revision: nat, evidence: Stamp)

  datatype TopicCount = TopicCount(topic: Topic, topicId: Option<nat>, count: nat, evidence: Stamp)

  datatype Snapshot = Snapshot(
    generation: nat,
    evidence: Stamp,
    brokers: seq<Broker>,
    controller: Option<Broker>,
    leaders: seq<PartitionLeader>,
    counts: seq<TopicCount>)

  datatype Query = Cluster | TopicQuery(topic: Topic)

  datatype Provenance = Provenance(generation: nat, evidence: Stamp, operation: nat, query: Query)

  datatype PartitionResponse = PartitionResponse(errorCode: int, index: int, leaderId: int, leaderEpoch: int)

  datatype NameResponse = NoName | InvalidName | Named(topic: Topic)

  datatype TopicResponse = TopicResponse(errorCode: int, name: NameResponse, topicId: Option<nat>, partitions: seq<PartitionResponse>)

  /** A broker as advertised; `host` tells whether its name is one the driver accepts. */
  datatype BrokerResponse = BrokerResponse(id: int, host: bool, port: int)

  datatype Response = Response(errorCode: int, brokers: seq<BrokerResponse>, controllerId: int, topics: seq<TopicResponse>)

  datatype Limits = Limits(maxBrokers: nat, maxTopics: nat, maxPartitions: nat)

  datatype BuildError =
    | ResponseError(code: int)
    | BrokerCapacity
    | BrokerId
    | BrokerHost(broker: Broker)
    | BrokerPort(broker: Broker, port: int)
    | DirectoryDuplicate
    | ControllerId
    | TopicCapacity
    | PartitionCapacity
    | TopicResponseCount(observed: nat)
    | TopicNameMissing
    | TopicNameInvalid
    | RequestedTopicMismatch
    | PartitionRangeInvalid
    | LeaderEpoch(partition: int)
    | LeaderId(partition: int)
    | LeaderDuplicate
    | CountDuplicate
    | UnknownController
    | UnknownPartitionLeader

  datatype Built<+T> = Ok(value: T) | Err(error: BuildError)

  // ------------------------------------------------------------------ canonical sets

  datatype Canonical<+T> = Entries(entries: seq<T>) | OverCapacity | Duplicate

  /** A bounded set kept sorted: accepted exactly when it fits and no two elements share a rank. */
  function Canonicalize<T>(rank: T -> Rank, source: seq<T>, limit: nat): (r: Canonical<T>)
    ensures r.Entries? <==> |source| <= limit && DistinctRanks(rank, source)
    ensures r.OverCapacity? <==> |source| > limit
    ensures r.Entries? ==> Climbs(rank, r.entries) && multiset(r.entries) == multiset(source)
  {
    if |source| > limit then OverCapacity
    else
      var sorted := Sort(rank, source);
      NoTwinsMeansClimbs(rank, sorted);
      ClimbsWhenSorted(rank, source);
      if TwinAt(rank, sorted) != -1 then Duplicate else Entries(sorted)
  }

  function CountRank(c: TopicCount): Rank { (c.topic, 0) }

  function LeaderRank(l: PartitionLeader): Rank { (l.topic, l.partition) }

  function BrokerRank(b: Broker): Rank { (b, 0) }

  function FindCount(counts: seq<TopicCount>, topic: Topic): (r: Option<TopicCount>)
    ensures r.Some? ==> r.value in counts && r.value.topic == topic
    ensures r.None? ==> forall c :: c in counts ==> c.topic != topic
  {
    if counts == [] then None
    else if counts[0].topic == topic then Some(counts[0])
    else
      assert counts == [counts[0]] + counts[1..];
      FindCount(counts[1..], topic)
  }

  /** In a canonical set the entry of a topic is the one found. */
  lemma FoundIsOnly(counts: seq<TopicCount>, c: TopicCount)
    requires Climbs(CountRank, counts) && c in counts
    ensures FindCount(counts, c.topic) == Some(c)
  {
    var found := FindCount(counts, c.topic).value;
    var i :| 0 <= i < |counts| && counts[i] == c;
    var j :| 0 <= j < |counts| && counts[j] == found;
    assert !Below(CountRank(counts[i]), CountRank(counts[j]));
    assert !Below(CountRank(counts[j]), CountRank(counts[i]));
  }

  // ------------------------------------------------------------------ one response

  function BrokerEntry(b: BrokerResponse): (r: Built<Broker>)
    ensures r.Ok? ==> r.value == b.id
  {
    if b.id < 0 then Err(BrokerId)
    else if !b.host then Err(BrokerHost(b.id))
    else if !(1 <= b.port <= 0xFFFF) then Err(BrokerPort(b.id, b.port))
    else Ok(b.id)
  }

  /** Entries in order, or the first defect. */
  function BrokerEntries(bs: seq<BrokerResponse>): (r: Built<seq<Broker>>)
    ensures r.Ok? <==> forall i :: 0 <= i < |bs| ==> BrokerEntry(bs[i]).Ok?
    ensures r.Ok? ==> |r.value| == |bs| && forall i :: 0 <= i < |bs| ==> r.value[i] == bs[i].id
  {
    if bs == [] then Ok([])
    else
      var front := BrokerEntries(bs[..|bs| - 1]);
      var last := BrokerEntry(bs[|bs| - 1]);
      if front.Err? then
        assert exists i :: 0 <= i < |bs| - 1 && bs[..|bs| - 1][i] == bs[i] && BrokerEntry(bs[i]).Err?;
        front
      else if last.Err? then Err(last.error)
      else
        assert forall i :: 0 <= i < |bs| - 1 ==> bs[..|bs| - 1][i] == bs[i];
        Ok(front.value + [last.value])
  }

  function Directory(response: Response, limits: Limits): Built<seq<Broker>> {
    if |response.brokers| > limits.maxBrokers then Err(BrokerCapacity)
    else
      var ids := BrokerEntries(response.brokers);
      if ids.Err? then Err(ids.error)
      else
        var all := Canonicalize(BrokerRank, ids.value, limits.maxBrokers);
        if !all.Entries? then Err(DirectoryDuplicate) else Ok(all.entries)
  }

  predicate Advertises(bs: seq<BrokerResponse>, b: Broker) { exists i :: 0 <= i < |bs| && bs[i].id == b }

  /**
   * A directory is accepted exactly when every broker is well formed, none is repeated and all fit; it holds
   * exactly the brokers advertised, in order.
   */
  lemma DirectoryExact(response: Response, limits: Limits)
    ensures var r, bs := Directory(response, limits), response.brokers;
      && (r.Ok? <==>
            && |bs| <= limits.maxBrokers
            && (forall i :: 0 <= i < |bs| ==> bs[i].id >= 0 && bs[i].host && 1 <= bs[i].port <= 0xFFFF)
            && (forall i, j :: 0 <= i < j < |bs| ==> bs[i].id != bs[j].id))
      && (r.Ok? ==> Climbs(BrokerRank, r.value) && forall b: Broker :: b in r.value <==> Advertises(bs, b))
  {
    hide Canonicalize, BrokerEntries, Climbs, Advertises;
    var ids := BrokerEntries(response.brokers);
    if |response.brokers| <= limits.maxBrokers && ids.Ok? {
      DistinctIds(response.brokers, ids.value);
      IdsListed(response.brokers, ids.value);
      var all := Canonicalize(BrokerRank, ids.value, limits.maxBrokers);
      if all.Entries? {
        SameMembers(all.entries, ids.value);
      }
    }
  }

  lemma DistinctIds(bs: seq<BrokerResponse>, ids: seq<Broker>)
    requires |bs| == |ids| && forall i :: 0 <= i < |bs| ==> ids[i] == bs[i].id
    ensures DistinctRanks(BrokerRank, ids) <==> forall i, j :: 0 <= i < j < |bs| ==> bs[i].id != bs[j].id
  {
    if DistinctRanks(BrokerRank, ids) {
      forall i, j | 0 <= i < j < |bs| ensures bs[i].id != bs[j].id {
        assert BrokerRank(ids[i]) != BrokerRank(ids[j]);
      }
    }
  }

  lemma IdsListed(bs: seq<BrokerResponse>, ids: seq<Broker>)
    requires |bs| == |ids| && forall i :: 0 <= i < |bs| ==> ids[i] == bs[i].id
    ensures forall b: Broker :: b in ids <==> Advertises(bs, b)
  {
    forall b: Broker | Advertises(bs, b) ensures b in ids {
      var i :| 0 <= i < |bs| && bs[i].id == b;
      assert ids[i] == b;
    }
  }

  /** The leader one partition of a response names, if it names one. */
  function LeaderOf(p: PartitionResponse, topic: Topic, revision: nat, evidence: Stamp): (r: Built<Option<PartitionLeader>>)
    ensures r.Ok? && r.value.Some? ==>
      && r.value.value.topic == topic && r.value.value.partition == p.index
      && r.value.value.broker == p.leaderId && r.value.value.evidence == evidence && r.value.value.revision == revision
  {
    if p.index < 0 then Err(PartitionRangeInvalid)
    else if p.leaderEpoch < -1 then Err(LeaderEpoch(p.index))
    else if p.leaderId == -1 then Ok(None)
    else if p.leaderId < 0 then Err(LeaderId(p.index))
    else
      var epoch := if p.leaderEpoch == -1 then None else Some(p.leaderEpoch as nat);
      Ok(Some(PartitionLeader(topic, p.index, p.leaderId, epoch, revision, evidence)))
  }

  /** The known leaders of a topic, skipping partitions that report an error. */
  function TopicLeaders(ps: seq<PartitionResponse>, topic: Topic, revision: nat, evidence: Stamp): (r: Built<seq<PartitionLeader>>)
    ensures r.Ok? ==> forall l :: l in r.value ==>
      && l.topic == topic && l.evidence == evidence
      && exists i :: 0 <= i < |ps| && ps[i].errorCode == 0 && ps[i].index == l.partition && ps[i].leaderId == l.broker
  {
    if ps == [] then Ok([])
    else
      var last := ps[|ps| - 1];
      var front := TopicLeaders(ps[..|ps| - 1], topic, revision, evidence);
      if front.Err? || last.errorCode != 0 then front
      else
        var leader := LeaderOf(last, topic, revision, evidence);
        if leader.Err? then Err(leader.error)
        else if leader.value.None? then front
        else Ok(front.value + [leader.value.value])
  }

  /** Partition `p` reports no error and names `l`: its own index, leader and epoch, where -1 stands for none. */
  predicate Names(p: PartitionResponse, l: PartitionLeader, topic: Topic, revision: nat, evidence: Stamp) {
    && p.errorCode == 0 && p.index >= 0 && p.leaderId >= 0 && p.leaderEpoch >= -1
    && l.topic == topic && l.partition == p.index && l.broker == p.leaderId
    && l.revision == revision && l.evidence == evidence
    && (if p.leaderEpoch == -1 then l.epoch.None? else l.epoch.Some? && l.epoch.value == p.leaderEpoch)
  }

  /** Nothing about the partition is malformed, or it reports an error and is not looked at. */
  predicate Sensible(p: PartitionResponse) {
    p.errorCode == 0 ==> p.index >= 0 && p.leaderEpoch >= -1 && p.leaderId >= -1
  }

  lemma LeaderOfExact(p: PartitionResponse, topic: Topic, revision: nat, evidence: Stamp)
    requires p.errorCode == 0
    ensures LeaderOf(p, topic, revision, evidence).Ok? <==> Sensible(p)
    ensures forall l :: LeaderOf(p, topic, revision, evidence) == Ok(Some(l)) <==> Names(p, l, topic, revision, evidence)
  {
  }

  /** The leaders collected are exactly those named, and one malformed partition refuses them all. */
  lemma {:induction false} LeadersExact(ps: seq<PartitionResponse>, topic: Topic, revision: nat, evidence: Stamp)
    ensures var r := TopicLeaders(ps, topic, revision, evidence);
      && (r.Ok? <==> forall i :: 0 <= i < |ps| ==> Sensible(ps[i]))
      && (r.Ok? ==> forall l :: l in r.value <==> exists i :: 0 <= i < |ps| && Names(ps[i], l, topic, revision, evidence))
    decreases |ps|
  {
    hide LeaderOf, Names, Sensible;
    if ps != [] {
      var front, last := ps[..|ps| - 1], ps[|ps| - 1];
      ErrorsIgnored(last, topic, revision, evidence);
      if last.errorCode == 0 {
        LeaderOfExact(last, topic, revision, evidence);
      }
      LeadersExact(front, topic, revision, evidence);
      var r := TopicLeaders(ps, topic, revision, evidence);
      assert forall i :: 0 <= i < |front| ==> front[i] == ps[i];
      if r.Ok? {
        forall l | l in r.value ensures exists i :: 0 <= i < |ps| && Names(ps[i], l, topic, revision, evidence) {
          if l in TopicLeaders(front, topic, revision, evidence).value {
            var i :| 0 <= i < |front| && Names(front[i], l, topic, revision, evidence);
            assert Names(ps[i], l, topic, revision, evidence);
          } else {
            assert Names(ps[|ps| - 1], l, topic, revision, evidence);
          }
        }
        forall l, i | 0 <= i < |ps| && Names(ps[i], l, topic, revision, evidence) ensures l in r.value {
          if i < |front| {
            assert Names(front[i], l, topic, revision, evidence);
          }
        }
      }
    }
  }

  datatype Refreshed = Refreshed(leaders: seq<PartitionLeader>, count: Option<TopicCount>)

  function Indices(ps: seq<PartitionResponse>): (r: seq<int>)
    ensures |r| == |ps| && forall i :: 0 <= i < |ps| ==> r[i] == ps[i].index
  {
    seq(|ps|, i requires 0 <= i < |ps| => ps[i].index)
  }

  function PartitionTotal(topics: seq<TopicResponse>): nat {
    if topics == [] then 0 else |topics[0].partitions| + PartitionTotal(topics[1..])
  }

  /** `partition_facts_for_topic`. */
  function PartitionFacts(response: Response, expected: Topic, revision: nat, evidence: Stamp, limits: Limits): Built<Refreshed> {
    if |response.topics| > limits.maxTopics then Err(TopicCapacity)
    else if PartitionTotal(response.topics) > limits.maxPartitions then Err(PartitionCapacity)
    else if |response.topics| != 1 then Err(TopicResponseCount(|response.topics|))
    else
      var topic := response.topics[0];
      match topic.name
      case NoName => Err(TopicNameMissing)
      case InvalidName => Err(TopicNameInvalid)
      case Named(name) =>
        if name != expected then Err(RequestedTopicMismatch)
        else if topic.errorCode != 0 then Ok(Refreshed([], None))
        else if !LogicalRange(Indices(topic.partitions)) || |topic.partitions| > U32_MAX then Err(PartitionRangeInvalid)
        else
          var leaders := TopicLeaders(topic.partitions, name, revision, evidence);
          if leaders.Err? then Err(leaders.error)
          else
            var known := Canonicalize(LeaderRank, leaders.value, limits.maxPartitions);
            if !known.Entries? then Err(LeaderDuplicate)
            else Ok(Refreshed(known.entries, Some(TopicCount(name, topic.topicId, |topic.partitions|, evidence))))
  }

  lemma ErrorsIgnored(p: PartitionResponse, topic: Topic, revision: nat, evidence: Stamp)
    ensures p.errorCode != 0 ==> Sensible(p) && forall l :: !Names(p, l, topic, revision, evidence)
  {
  }

  /** The topic reports no error and one of its partitions names `l`. */
  predicate LedBy(topic: TopicResponse, l: PartitionLeader, expected: Topic, revision: nat, evidence: Stamp) {
    && topic.errorCode == 0
    && exists i :: 0 <= i < |topic.partitions| && Names(topic.partitions[i], l, expected, revision, evidence)
  }

  /** When an answer about `expected` is accepted: it is about that topic alone, fits, and is well formed. */
  ghost predicate Acceptable(response: Response, expected: Topic, limits: Limits) {
    && |response.topics| == 1 <= limits.maxTopics
    && var topic := response.topics[0];
      && |topic.partitions| <= limits.maxPartitions
      && topic.name == Named(expected)
      && (topic.errorCode == 0 ==>
            && LogicalRange(Indices(topic.partitions)) && |topic.partitions| <= U32_MAX
            && forall i :: 0 <= i < |topic.partitions| ==> Sensible(topic.partitions[i]))
  }

  /**
   * What an answer about a topic says. A topic without error has as many partitions as the answer lists and
   * exactly the leaders they name; one with an error has neither.
   */
  lemma FactsExact(response: Response, expected: Topic, revision: nat, evidence: Stamp, limits: Limits)
    ensures var facts := PartitionFacts(response, expected, revision, evidence, limits);
      && (facts.Ok? <==> Acceptable(response, expected, limits))
      && (facts.Ok? ==>
            var topic := response.topics[0];
            && facts.value.count ==
               (if topic.errorCode == 0 then Some(TopicCount(expected, topic.topicId, |topic.partitions|, evidence)) else None)
            && Climbs(LeaderRank, facts.value.leaders)
            && (forall l :: l in facts.value.leaders <==> LedBy(topic, l, expected, revision, evidence)))
  {
    hide Canonicalize, TopicLeaders, LogicalRange, Names, Sensible, Climbs;
    if |response.topics| == 1 {
      var topic := response.topics[0];
      LeadersExact(topic.partitions, expected, revision, evidence);
      assert PartitionTotal(response.topics) == |topic.partitions| by {
        assert PartitionTotal(response.topics[1..]) == 0;
      }
      var leaders := TopicLeaders(topic.partitions, expected, revision, evidence);
      if leaders.Ok? && LogicalRange(Indices(topic.partitions)) {
        RangeDistinct(Indices(topic.partitions));
        LeadersDistinct(topic.partitions, expected, revision, evidence);
        var known := Canonicalize(LeaderRank, leaders.value, limits.maxPartitions);
        if known.Entries? {
          SameMembers(known.entries, leaders.value);
        }
      }
      NothingClimbs();
    }
  }

  lemma NothingClimbs()
    ensures Climbs(LeaderRank, [])
  {
  }

  /** A permutation of 0..n-1 repeats nothing. */
  lemma RangeDistinct(indices: seq<int>)
    requires LogicalRange(indices)
    ensures forall i, j :: 0 <= i < j < |indices| ==> indices[i] != indices[j]
  {
    assert DistinctRanks(Identity, UpTo(|indices|));
    Rearranged(Identity, UpTo(|indices|), indices);
    forall i, j | 0 <= i < j < |indices| ensures indices[i] != indices[j] {
      assert Identity(indices[i]) != Identity(indices[j]);
    }
  }

  lemma {:induction false} LeadersDistinct(ps: seq<PartitionResponse>, topic: Topic, revision: nat, evidence: Stamp)
    requires forall i, j :: 0 <= i < j < |ps| ==> Indices(ps)[i] != Indices(ps)[j]
    ensures var r := TopicLeaders(ps, topic, revision, evidence);
      r.Ok? ==> |r.value| <= |ps| && DistinctRanks(LeaderRank, r.value)
    decreases |ps|
  {
    if ps != [] && TopicLeaders(ps, topic, revision, evidence).Ok? {
      var front, last := ps[..|ps| - 1], ps[|ps| - 1];
      assert forall i :: 0 <= i < |front| ==> Indices(front)[i] == Indices(ps)[i];
      LeadersDistinct(front, topic, revision, evidence);
      var before := TopicLeaders(front, topic, revision, evidence).value;
      forall k | 0 <= k < |before| ensures before[k].partition != last.index {
        assert before[k] in before;
        var i :| 0 <= i < |front| && front[i].index == before[k].partition;
        assert Indices(ps)[i] != Indices(ps)[|ps| - 1];
      }
    }
  }

  /** What accepted facts about a topic say: leaders and count are about it and agree with each other. */
  lemma FactsAgree(response: Response, expected: Topic, revision: nat, evidence: Stamp, limits: Limits)
    ensures var facts := PartitionFacts(response, expected, revision, evidence, limits);
      facts.Ok? ==>
        && (facts.value.count.Some? ==>
              && facts.value.count.value.topic == expected && facts.value.count.value.evidence == evidence
              && facts.value.count.value.count == |response.topics[0].partitions| > 0)
        && (forall l :: l in facts.value.leaders ==>
              && l.topic == expected && l.evidence == evidence
              && facts.value.count.Some? && l.partition < facts.value.count.value.count)
  {
    hide PartitionFacts, LogicalRange, Names;
    FactsExact(response, expected, revision, evidence, limits);
    var facts := PartitionFacts(response, expected, revision, evidence, limits);
    if facts.Ok? {
      var topic := response.topics[0];
      if topic.errorCode == 0 {
        RangeCounts(Indices(topic.partitions));
      }
      forall l | l in facts.value.leaders ensures l.topic == expected && l.evidence == evidence && l.partition < |topic.partitions| {
        var i :| 0 <= i < |topic.partitions| && Names(topic.partitions[i], l, expected, revision, evidence);
        NamesItsIndex(topic.partitions[i], l, expected, revision, evidence);
        WithinRange(Indices(topic.partitions), i);
      }
    }
  }

  lemma NamesItsIndex(p: PartitionResponse, l: PartitionLeader, topic: Topic, revision: nat, evidence: Stamp)
    requires Names(p, l, topic, revision, evidence)
    ensures l.topic == topic && l.evidence == evidence && l.partition == p.index
  {
  }

  lemma RangeCounts(indices: seq<int>)
    requires LogicalRange(indices)
    ensures |indices| > 0
  {
  }

  lemma WithinRange(indices: seq<int>, i: nat)
    requires LogicalRange(indices) && i < |indices|
    ensures 0 <= indices[i] < |indices|
  {
    assert indices[i] in multiset(indices);
    assert indices[i] in UpTo(|indices|);
  }

  /** The loop that collects them. */
  method CollectLeaders(ps: seq<PartitionResponse>, topic: Topic, revision: nat, evidence: Stamp)
    returns (r: Built<seq<PartitionLeader>>)
    ensures r == TopicLeaders(ps, topic, revision, evidence)
  {
    var leaders: seq<PartitionLeader> := [];
    for i := 0 to |ps|
      invariant TopicLeaders(ps[..i], topic, revision, evidence) == Ok(leaders)
    {
      assert ps[..i + 1][..i] == ps[..i];
      if ps[i].errorCode == 0 {
        var leader := LeaderOf(ps[i], topic, revision, evidence);
        if leader.Err? {
          FailureStays(ps, i + 1, topic, revision, evidence);
          return Err(leader.error);
        }
        if leader.value.Some? {
          leaders := leaders + [leader.value.value];
        }
      }
    }
    assert ps[..|ps|] == ps;
    r := Ok(leaders);
  }

  lemma {:induction false} FailureStays(ps: seq<PartitionResponse>, i: nat, topic: Topic, revision: nat, evidence: Stamp)
    requires i <= |ps| && TopicLeaders(ps[..i], topic, revision, evidence).Err?
    ensures TopicLeaders(ps, topic, revision, evidence) == TopicLeaders(ps[..i], topic, revision, evidence)
    decreases |ps|
  {
    if i == |ps| {
      assert ps[..i] == ps;
    } else {
      assert ps[..|ps| - 1][..i] == ps[..i];
      FailureStays(ps[..|ps| - 1], i, topic, revision, evidence);
    }
  }

  // ------------------------------------------------------------------ merging

  function OfOthers(topic: Topic): TopicCount -> bool { (c: TopicCount) => c.topic != topic }

  function LedElsewhere(topic: Topic, brokers: seq<Broker>): PartitionLeader -> bool {
    (l: PartitionLeader) => l.topic != topic && l.broker in brokers
  }

  function TopicsLed(leaders: seq<PartitionLeader>): nat {
    if leaders == [] then 0
    else if |leaders| == 1 || leaders[0].topic != leaders[1].topic then 1 + TopicsLed(leaders[1..])
    else TopicsLed(leaders[1..])
  }

  function TopicSet(leaders: seq<PartitionLeader>): set<Topic> {
    set l | l in leaders :: l.topic
  }

  /** Counting changes of topic along a sorted list counts its topics. */
  lemma {:induction false} TopicsCounted(leaders: seq<PartitionLeader>)
    requires Ascends(LeaderRank, leaders)
    ensures TopicsLed(leaders) == |TopicSet(leaders)|
  {
    if leaders == [] {
      assert TopicSet(leaders) == {};
    } else {
      var first, rest := leaders[0], leaders[1..];
      TopicsCounted(rest);
      FirstTopic(leaders);
    }
  }

  lemma FirstTopic(leaders: seq<PartitionLeader>)
    requires leaders != [] && Ascends(LeaderRank, leaders)
    ensures var topics := TopicSet(leaders[1..]);
      && TopicSet(leaders) == topics + {leaders[0].topic}
      && (leaders[0].topic in topics <==> |leaders| > 1 && leaders[0].topic == leaders[1].topic)
  {
    var first, rest := leaders[0], leaders[1..];
    assert leaders == [first] + rest;
    if |leaders| > 1 {
      assert rest[0] in rest;
      forall l | l in rest ensures leaders[1].topic <= l.topic {
        var i :| 0 <= i < |rest| && rest[i] == l;
        assert AtMost(LeaderRank(leaders[1]), LeaderRank(leaders[i + 1]));
      }
      assert AtMost(LeaderRank(leaders[0]), LeaderRank(leaders[1]));
    }
  }

  /** Accepted exactly when the leaders fit, name no partition twice and lead no more topics than allowed. */
  function LeaderSet(source: seq<PartitionLeader>, limits: Limits): (r: Built<seq<PartitionLeader>>)
    ensures r.Ok? ==> Climbs(LeaderRank, r.value) && multiset(r.value) == multiset(source)
    ensures r.Ok? <==>
      && |source| <= limits.maxPartitions && DistinctRanks(LeaderRank, source)
      && |TopicSet(source)| <= limits.maxTopics
  {
    var all := Canonicalize(LeaderRank, source, limits.maxPartitions);
    assert all.Entries? ==> TopicsLed(all.entries) == |TopicSet(source)| by {
      if all.Entries? {
        TopicsCounted(all.entries);
        SameMembers(all.entries, source);
        assert TopicSet(all.entries) == TopicSet(source);
      }
    }
    if all.OverCapacity? then Err(PartitionCapacity)
    else if all.Duplicate? then Err(LeaderDuplicate)
    else if TopicsLed(all.entries) > limits.maxTopics then Err(TopicCapacity)
    else Ok(all.entries)
  }

  function CountSet(source: seq<TopicCount>, limits: Limits): (r: Built<seq<TopicCount>>)
    ensures r.Ok? ==> Climbs(CountRank, r.value) && multiset(r.value) == multiset(source)
    ensures r.Ok? <==> |source| <= limits.maxTopics && DistinctRanks(CountRank, source)
  {
    var all := Canonicalize(CountRank, source, limits.maxTopics);
    if all.OverCapacity? then Err(TopicCapacity)
    else if all.Duplicate? then Err(CountDuplicate)
    else Ok(all.entries)
  }

  function CountsOf(current: Option<Snapshot>): seq<TopicCount> { if current.Some? then current.value.counts else [] }

  function LeadersOf(current: Option<Snapshot>): seq<PartitionLeader> { if current.Some? then current.value.leaders else [] }

  function OptionSeq<T>(o: Option<T>): seq<T> { if o.Some? then [o.value] else [] }

  /** `try_with_topic_counts`: the controller and every leader must be members. */
  function Join(p: Provenance, brokers: seq<Broker>, controller: Option<Broker>, leaders: seq<PartitionLeader>,
                counts: seq<TopicCount>): (r: Built<Snapshot>)
    ensures r.Ok? ==> r.value == Snapshot(p.generation, p.evidence, brokers, controller, leaders, counts)
    ensures r.Ok? <==> (controller.Some? ==> controller.value in brokers) && forall l :: l in leaders ==> l.broker in brokers
  {
    if controller.Some? && controller.value !in brokers then Err(UnknownController)
    else if exists l :: l in leaders && l.broker !in brokers then Err(UnknownPartitionLeader)
    else Ok(Snapshot(p.generation, p.evidence, brokers, controller, leaders, counts))
  }

  /** `snapshot_from_response`. */
  function Assemble(response: Response, p: Provenance, current: Option<Snapshot>, limits: Limits): Built<Snapshot> {
    if response.errorCode != 0 then Err(ResponseError(response.errorCode))
    else
      var brokers := Directory(response, limits);
      if brokers.Err? then Err(brokers.error)
      else if response.controllerId < -1 then Err(ControllerId)
      else
        var controller := if response.controllerId == -1 then None else Some(response.controllerId as nat);
        match p.query
        case Cluster =>
          var counts := CountSet(CountsOf(current), limits);
          if counts.Err? then Err(counts.error)
          else Join(p, brokers.value, controller, [], counts.value)
        case TopicQuery(topic) => AssembleTopic(response, p, topic, brokers.value, controller, current, limits)
  }

  function AssembleTopic(response: Response, p: Provenance, topic: Topic, brokers: seq<Broker>, controller: Option<Broker>,
                         current: Option<Snapshot>, limits: Limits): Built<Snapshot> {
    var facts := PartitionFacts(response, topic, p.operation, p.evidence, limits);
    if facts.Err? then Err(facts.error)
    else
      var leaders := LeaderSet(Keep(LedElsewhere(topic, brokers), LeadersOf(current)) + facts.value.leaders, limits);
      if leaders.Err? then Err(leaders.error)
      else
        var counts := CountSet(Keep(OfOthers(topic), CountsOf(current)) + OptionSeq(facts.value.count), limits);
        if counts.Err? then Err(counts.error)
        else Join(p, brokers, controller, leaders.value, counts.value)
  }

  /** Canonical sets, known brokers, and below every leader a count of its topic that covers its partition. */
  ghost predicate Coherent(s: Snapshot) {
    && Climbs(LeaderRank, s.leaders)
    && Climbs(CountRank, s.counts)
    && (s.controller.Some? ==> s.controller.value in s.brokers)
    && (forall l :: l in s.leaders ==>
          && l.broker in s.brokers
          && FindCount(s.counts, l.topic).Some?
          && l.partition < FindCount(s.counts, l.topic).value.count)
  }

  ghost predicate CoherentIfAny(current: Option<Snapshot>) { current.Some? ==> Coherent(current.value) }

  lemma {:induction false} KeepMembers<A>(p: A -> bool, s: seq<A>)
    ensures forall x :: x in Keep(p, s) <==> x in s && p(x)
  {
    if s != [] {
      KeepMembers(p, s[1..]);
      assert s == [s[0]] + s[1..];
    }
  }

  /** What an accepted topic response makes of the snapshot before it. */
  lemma TopicMerge(response: Response, p: Provenance, topic: Topic, brokers: seq<Broker>, controller: Option<Broker>,
                   current: Option<Snapshot>, limits: Limits)
    ensures var r := AssembleTopic(response, p, topic, brokers, controller, current, limits);
      r.Ok? ==>
        var facts := PartitionFacts(response, topic, p.operation, p.evidence, limits);
        && facts.Ok? && r.value.brokers == brokers && r.value.controller == controller
        && r.value.generation == p.generation && r.value.evidence == p.evidence
        && (controller.Some? ==> controller.value in brokers)
        && Climbs(LeaderRank, r.value.leaders) && Climbs(CountRank, r.value.counts)
        && (forall l :: l in r.value.leaders <==>
              (l in LeadersOf(current) && l.topic != topic && l.broker in brokers) || l in facts.value.leaders)
        && (forall c :: c in r.value.counts <==>
              (c in CountsOf(current) && c.topic != topic) || facts.value.count == Some(c))
        && (forall l :: l in r.value.leaders ==> l.broker in brokers)
  {
    hide PartitionFacts, LeaderSet, CountSet, Keep, Climbs;
    var r := AssembleTopic(response, p, topic, brokers, controller, current, limits);
    if r.Ok? {
      var facts := PartitionFacts(response, topic, p.operation, p.evidence, limits).value;
      var leaders := Keep(LedElsewhere(topic, brokers), LeadersOf(current)) + facts.leaders;
      var counts := Keep(OfOthers(topic), CountsOf(current)) + OptionSeq(facts.count);
      KeepMembers(LedElsewhere(topic, brokers), LeadersOf(current));
      KeepMembers(OfOthers(topic), CountsOf(current));
      SameMembers(r.value.leaders, leaders);
      SameMembers(r.value.counts, counts);
    }
  }
}
