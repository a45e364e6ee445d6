/** Whole runs over the lane index: owners are reserved in groups, started in order and removed alone or together. */
module LaneIndexRuns {
  import opened Common
  import opened LaneIndexes

  datatype LaneOp =
    | ReserveGroup(n: nat)
    | InsertNext
    | RemoveLane(key: LaneKey, seed: Option<LaneKey>, families: set<LaneKey>, reclaimable: bool)
    | RemoveGroup(group: nat, active: seq<bool>, reclaimables: set<LaneKey>)

  datatype LaneAnswer =
    | Reserving(reservation: Reservation)
    | Inserting(insertion: Insertion)
    | Removing(removal: Removal)
    | NothingToDo

  datatype LaneEvent = LaneEvent(op: LaneOp, answer: LaneAnswer)

  // What a trace of operations and answers amounts to.

  /** The keys issued, in order. */
  function IssuedIn(trace: seq<LaneEvent>): seq<LaneKey> {
    if trace == [] then [] else IssuedIn(trace[..|trace| - 1]) + NewKeys(trace[|trace| - 1])
  }

  function NewKeys(e: LaneEvent): seq<LaneKey> {
    if e.answer.Reserving? && e.answer.reservation.Reserved? then Keys(e.answer.reservation.owners) else []
  }

  /** The keys of each group reserved. */
  function GroupsIn(trace: seq<LaneEvent>): seq<seq<LaneKey>> {
    if trace == [] then []
    else GroupsIn(trace[..|trace| - 1]) + if NewKeys(trace[|trace| - 1]) == [] then [] else [NewKeys(trace[|trace| - 1])]
  }

  /** How many owners were offered to the index. */
  function Offered(trace: seq<LaneEvent>): nat {
    if trace == [] then 0 else Offered(trace[..|trace| - 1]) + if trace[|trace| - 1].answer.Inserting? then 1 else 0
  }

  /** The lanes that were inserted and not removed since. */
  function LiveIn(trace: seq<LaneEvent>): set<LaneKey> {
    if trace == [] then {} else LiveAfter(trace[..|trace| - 1], LiveIn(trace[..|trace| - 1]), trace[|trace| - 1])
  }

  function LiveAfter(before: seq<LaneEvent>, live: set<LaneKey>, e: LaneEvent): set<LaneKey> {
    match e.answer
    case Inserting(Inserted(key)) => live + {key}
    case Removing(Removed) => live - RemovedBy(before, e.op)
    case _ => live
  }

  function RemovedBy(before: seq<LaneEvent>, op: LaneOp): set<LaneKey> {
    match op
    case RemoveLane(key, _, _, _) => {key}
    case RemoveGroup(group, _, _) => if group < |GroupsIn(before)| then set k | k in GroupsIn(before)[group] else {}
    case _ => {}
  }

  function LaneRemoval(live: set<LaneKey>, key: LaneKey, seed: Option<LaneKey>, families: set<LaneKey>, reclaimable: bool): Removal {
    if seed == Some(key) then SeedRefused
    else if key in families then FamilyRefused
    else if key !in live then StaleRefused
    else if !reclaimable then Kept
    else Removed
  }

  predicate StartedAt(active: seq<bool>, i: nat) { i < |active| && active[i] }

  function GroupRemoval(live: set<LaneKey>, group: seq<LaneKey>, active: seq<bool>, reclaimables: set<LaneKey>): Removal {
    if exists i :: 0 <= i < |group| && StartedAt(active, i) != (group[i] in live) then DivergedRefused
    else if exists i :: 0 <= i < |group| && group[i] in live && group[i] !in reclaimables then Kept
    else Removed
  }

  /** The answer an operation gets after `before`; an owner is never found to be in use already. */
  ghost predicate Fits(before: seq<LaneEvent>, e: LaneEvent) {
    match e.op
    case ReserveGroup(n) =>
      e.answer.Reserving? && (e.answer.reservation.Reserved? ==> |e.answer.reservation.owners| == n)
    case InsertNext =>
      if Offered(before) >= |IssuedIn(before)| then e.answer == NothingToDo
      else
        && e.answer.Inserting? && !e.answer.insertion.OwnerReused?
        && (e.answer.insertion.Inserted? ==> e.answer.insertion.key == IssuedIn(before)[Offered(before)])
    case RemoveLane(key, seed, families, reclaimable) =>
      e.answer == Removing(LaneRemoval(LiveIn(before), key, seed, families, reclaimable))
    case RemoveGroup(group, active, reclaimables) =>
      e.answer ==
        if group >= |GroupsIn(before)| then NothingToDo
        else Removing(GroupRemoval(LiveIn(before), GroupsIn(before)[group], active, reclaimables))
  }

  predicate RefusedGroup(e: LaneEvent) {
    e.op.ReserveGroup? && e.answer.Reserving? && e.answer.reservation.NoIdentity?
  }

  ghost predicate Answers(trace: seq<LaneEvent>) {
    trace == [] || (Answers(trace[..|trace| - 1]) && Fits(trace[..|trace| - 1], trace[|trace| - 1]))
  }

  function OpsOf(trace: seq<LaneEvent>): seq<LaneOp> {
    seq(|trace|, i requires 0 <= i < |trace| => trace[i].op)
  }

  lemma Snoc(trace: seq<LaneEvent>, e: LaneEvent)
    ensures var more := trace + [e];
      && IssuedIn(more) == IssuedIn(trace) + NewKeys(e)
      && GroupsIn(more) == GroupsIn(trace) + (if NewKeys(e) == [] then [] else [NewKeys(e)])
      && Offered(more) == Offered(trace) + (if e.answer.Inserting? then 1 else 0)
      && LiveIn(more) == LiveAfter(trace, LiveIn(trace), e)
      && (Answers(more) <==> Answers(trace) && Fits(trace, e))
      && OpsOf(more) == OpsOf(trace) + [e.op]
  {
    assert (trace + [e])[..|trace|] == trace;
  }

  /** No key was issued twice, and those issued are what the allocator has issued since. */
  ghost predicate Accounted(issued: seq<LaneKey>, before: set<LaneKey>, now: set<LaneKey>) {
    && Distinct(issued)
    && (forall k :: k in issued ==> k !in before)
    && (forall k :: k in now <==> k in before || k in issued)
  }

  lemma AccountedMore(issued: seq<LaneKey>, before: set<LaneKey>, now: set<LaneKey>, owners: seq<LaneOwner>, later: set<LaneKey>)
    requires Accounted(issued, before, now)
    requires forall i, j :: 0 <= i < j < |owners| ==> owners[i].key.lane < owners[j].key.lane
    requires forall i, k :: 0 <= i < |owners| && k in now ==> k.lane != owners[i].key.lane
    requires later == now + set i | 0 <= i < |owners| :: owners[i].key
    ensures Accounted(issued + Keys(owners), before, later) && Distinct(Keys(owners))
  {
    forall i | 0 <= i < |owners| ensures owners[i].key !in now && owners[i].key in later && Keys(owners)[i] == owners[i].key {
    }
    forall k ensures k in later <==> k in before || k in issued + Keys(owners) {
      if k in later && k !in now {
        var i :| 0 <= i < |owners| && owners[i].key == k;
        assert Keys(owners)[i] == k;
      }
    }
  }

  /** Everything live was among the owners offered so far. */
  ghost predicate OnlyOffered(live: set<LaneKey>, issued: seq<LaneKey>, offered: nat) {
    forall k :: k in live ==> exists i :: 0 <= i < offered && i < |issued| && issued[i] == k
  }

  lemma NextIsNew(live: set<LaneKey>, issued: seq<LaneKey>, offered: nat)
    requires Distinct(issued) && offered < |issued| && OnlyOffered(live, issued, offered)
    ensures issued[offered] !in live
    ensures OnlyOffered(live, issued, offered + 1) && OnlyOffered(live + {issued[offered]}, issued, offered + 1)
  {
    forall k | k in live ensures exists i :: 0 <= i < offered + 1 && i < |issued| && issued[i] == k {
      var i :| 0 <= i < offered && i < |issued| && issued[i] == k;
    }
    assert 0 <= offered < offered + 1 && issued[offered] == issued[offered];
  }

  lemma StillOffered(live: set<LaneKey>, fewer: set<LaneKey>, issued: seq<LaneKey>, more: seq<LaneKey>, offered: nat)
    requires OnlyOffered(live, issued, offered) && fewer <= live && offered <= |issued|
    ensures OnlyOffered(fewer, issued + more, offered)
  {
    forall k | k in fewer ensures exists i :: 0 <= i < offered && i < |issued + more| && (issued + more)[i] == k {
      var i :| 0 <= i < offered && i < |issued| && issued[i] == k;
      assert (issued + more)[i] == k;
    }
  }

  ghost predicate GroupKeys(groups: seq<seq<LaneOwner>>, keys: seq<seq<LaneKey>>) {
    && |groups| == |keys|
    && forall g :: 0 <= g < |groups| ==> Keys(groups[g]) == keys[g] && Distinct(keys[g])
  }

  lemma GroupKeysMore(groups: seq<seq<LaneOwner>>, keys: seq<seq<LaneKey>>, owners: seq<LaneOwner>)
    requires GroupKeys(groups, keys) && Distinct(Keys(owners))
    ensures GroupKeys(groups + [owners], keys + [Keys(owners)])
  {
  }

  lemma ReserveFits(trace: seq<LaneEvent>, n: nat, r: Reservation)
    requires r.Reserved? ==> |r.owners| == n
    ensures var e := LaneEvent(ReserveGroup(n), Reserving(r));
      && Fits(trace, e) && LiveAfter(trace, LiveIn(trace), e) == LiveIn(trace)
      && NewKeys(e) == (if r.Reserved? then Keys(r.owners) else []) && (r.Reserved? && n > 0 ==> NewKeys(e) != [])
  {
  }

  lemma IdleFits(trace: seq<LaneEvent>)
    requires Offered(trace) >= |IssuedIn(trace)|
    ensures Fits(trace, LaneEvent(InsertNext, NothingToDo))
  {
  }

  lemma InsertFits(trace: seq<LaneEvent>, insertion: Insertion)
    requires Offered(trace) < |IssuedIn(trace)| && !insertion.OwnerReused?
    requires insertion.Inserted? ==> insertion.key == IssuedIn(trace)[Offered(trace)]
    ensures Fits(trace, LaneEvent(InsertNext, Inserting(insertion)))
  {
  }

  /** The allocator, the index, and the owners reserved and not yet started. */
  class ClusterLanes {
    const allocator: IdentityAllocator
    const slots: LaneSlots
    var waiting: seq<LaneOwner>
    var groups: seq<seq<LaneOwner>>
    ghost const before: set<LaneKey>
    var trace: seq<LaneEvent>

    ghost predicate Valid()
      reads this, allocator, slots
    {
      && allocator.Valid() && slots.Valid() && Answers(trace)
      && Accounted(IssuedIn(trace), before, allocator.issued)
      && Offered(trace) <= |IssuedIn(trace)| && Keys(waiting) == IssuedIn(trace)[Offered(trace)..]
      && slots.slots.Keys == LiveIn(trace) && OnlyOffered(LiveIn(trace), IssuedIn(trace), Offered(trace))
      && GroupKeys(groups, GroupsIn(trace))
      && RefusalsStand()
    }

    /** A group was refused only where identities have run out for its size. */
    ghost predicate RefusalsStand()
      reads this, allocator
    {
      forall i :: 0 <= i < |trace| && RefusedGroup(trace[i]) ==> !allocator.HasRoom(trace[i].op.n)
    }

    constructor (allocator: IdentityAllocator, capacity: nat)
      requires allocator.Valid()
      ensures Valid() && trace == [] && this.allocator == allocator && before == allocator.issued
      ensures fresh(slots) && slots.capacity == capacity
    {
      this.allocator, before, waiting, groups, trace := allocator, allocator.issued, [], [], [];
      slots := new LaneSlots(capacity);
      new;
      assert Keys([]) == [];
    }

    method Reserve(n: nat)
      requires Valid()
      modifies this, allocator
      ensures Valid() && old(trace) <= trace && OpsOf(trace) == OpsOf(old(trace)) + [ReserveGroup(n)]
    {
      hide Distinct, LaneSlots.Valid, Fits, Answers, IssuedIn, GroupsIn, Offered, LiveIn, OnlyOffered, Accounted, OpsOf,
        GroupKeys, NewKeys, LiveAfter;
      ghost var issued := allocator.issued;
      var r := allocator.ReserveEndpointLanes(n);
      var e := LaneEvent(ReserveGroup(n), Reserving(r));
      ReserveFits(trace, n, r);
      Snoc(trace, e);
      StillOffered(LiveIn(trace), LiveIn(trace), IssuedIn(trace), NewKeys(e), Offered(trace));
      assert (IssuedIn(trace) + NewKeys(e))[Offered(trace)..] == IssuedIn(trace)[Offered(trace)..] + NewKeys(e);
      if r.Reserved? {
        AccountedMore(IssuedIn(trace), before, issued, r.owners, allocator.issued);
        assert Keys(waiting + r.owners) == Keys(waiting) + Keys(r.owners);
        GroupKeysMore(groups, GroupsIn(trace), r.owners);
        waiting := waiting + r.owners;
        groups := groups + [r.owners];
      } else {
        assert IssuedIn(trace) + [] == IssuedIn(trace) && GroupsIn(trace) + [] == GroupsIn(trace);
      }
      trace := trace + [e];
    }

    /** `insert_reserved` of the next owner: its key is in no slot. */
    method InsertOne()
      requires Valid()
      modifies this, slots
      ensures Valid() && old(trace) <= trace && OpsOf(trace) == OpsOf(old(trace)) + [InsertNext]
    {
      hide Distinct, LaneSlots.Valid, Fits, Answers, IssuedIn, GroupsIn, Offered, LiveIn, OnlyOffered, Accounted, OpsOf;
      if waiting == [] {
        IdleFits(trace);
        Note(LaneEvent(InsertNext, NothingToDo));
        return;
      }
      ghost var issued, offered := IssuedIn(trace), Offered(trace);
      assert Keys(waiting)[0] == waiting[0].key == issued[offered];
      AccountedDistinct(issued, before, allocator.issued);
      NextIsNew(LiveIn(trace), issued, offered);
      var insertion := slots.Insert(waiting[0]);
      var e := LaneEvent(InsertNext, Inserting(insertion));
      InsertFits(trace, insertion);
      Snoc(trace, e);
      assert issued + [] == issued;
      assert Keys(waiting[1..]) == Keys(waiting)[1..] == issued[offered + 1..];
      waiting := waiting[1..];
      trace := trace + [e];
    }

    /** An event that changes neither what was issued nor what was offered. */
    method Note(e: LaneEvent)
      requires allocator.Valid() && slots.Valid() && Answers(trace) && Fits(trace, e)
      requires Accounted(IssuedIn(trace), before, allocator.issued)
      requires Offered(trace) <= |IssuedIn(trace)| && Keys(waiting) == IssuedIn(trace)[Offered(trace)..]
      requires slots.slots.Keys == LiveAfter(trace, LiveIn(trace), e)
      requires OnlyOffered(LiveIn(trace), IssuedIn(trace), Offered(trace)) && GroupKeys(groups, GroupsIn(trace)) && RefusalsStand()
      requires !e.answer.Reserving? && !e.answer.Inserting?
      modifies this`trace
      ensures Valid() && trace == old(trace) + [e] && OpsOf(trace) == OpsOf(old(trace)) + [e.op]
    {
      hide Distinct, LaneSlots.Valid, OnlyOffered, Accounted, Fits;
      Snoc(trace, e);
      StillOffered(LiveIn(trace), LiveAfter(trace, LiveIn(trace), e), IssuedIn(trace), [], Offered(trace));
      assert IssuedIn(trace) + [] == IssuedIn(trace);
      trace := trace + [e];
    }

    method RemoveOne(key: LaneKey, seed: Option<LaneKey>, families: set<LaneKey>, reclaimable: bool)
      requires Valid()
      modifies this, slots
      ensures Valid() && old(trace) <= trace
      ensures OpsOf(trace) == OpsOf(old(trace)) + [RemoveLane(key, seed, families, reclaimable)]
    {
      hide Distinct, LaneSlots.Valid, OnlyOffered, Accounted;
      var removal := slots.Remove(key, seed, families, reclaimable);
      Note(LaneEvent(RemoveLane(key, seed, families, reclaimable), Removing(removal)));
    }

    method RemoveTogether(group: nat, active: seq<bool>, reclaimables: set<LaneKey>)
      requires Valid()
      modifies this, slots
      ensures Valid() && old(trace) <= trace
      ensures OpsOf(trace) == OpsOf(old(trace)) + [RemoveGroup(group, active, reclaimables)]
    {
      hide Distinct, LaneSlots.Valid, OnlyOffered, Accounted;
      var op := RemoveGroup(group, active, reclaimables);
      if group >= |groups| {
        Note(LaneEvent(op, NothingToDo));
        return;
      }
      var family := FamilyOf(groups[group], active);
      ghost var keys, live := GroupsIn(trace)[group], LiveIn(trace);
      SameRemoval(family, keys, live, active, reclaimables);
      var removal := slots.RemoveFamily(family, reclaimables);
      Note(LaneEvent(op, Removing(removal)));
    }

    method Perform(op: LaneOp)
      requires Valid()
      modifies this, allocator, slots
      ensures Valid() && old(trace) <= trace && OpsOf(trace) == OpsOf(old(trace)) + [op]
    {
      hide Valid;
      match op
      case ReserveGroup(n) => Reserve(n);
      case InsertNext => InsertOne();
      case RemoveLane(key, seed, families, reclaimable) => RemoveOne(key, seed, families, reclaimable);
      case RemoveGroup(group, active, reclaimables) => RemoveTogether(group, active, reclaimables);
    }
  }

  lemma AccountedDistinct(issued: seq<LaneKey>, before: set<LaneKey>, now: set<LaneKey>)
    requires Accounted(issued, before, now)
    ensures Distinct(issued)
  {
  }

  /** A family of the lanes reserved together, with what was started of it. */
  function FamilyOf(owners: seq<LaneOwner>, active: seq<bool>): (family: seq<FamilyLane>)
    ensures FamilyKeys(family) == Keys(owners) && |family| == |owners|
    ensures forall i :: 0 <= i < |family| ==> family[i].active == StartedAt(active, i)
  {
    seq(|owners|, i requires 0 <= i < |owners| => FamilyLane(owners[i].key, StartedAt(active, i)))
  }

  lemma SameRemoval(family: seq<FamilyLane>, keys: seq<LaneKey>, live: set<LaneKey>, active: seq<bool>, reclaimables: set<LaneKey>)
    requires FamilyKeys(family) == keys && |family| == |keys|
    requires forall i :: 0 <= i < |family| ==> family[i].active == StartedAt(active, i)
    ensures GroupRemoval(live, keys, active, reclaimables) == (
      if exists i :: 0 <= i < |family| && family[i].active != (family[i].key in live) then DivergedRefused
      else if exists i :: 0 <= i < |family| && family[i].key in live && family[i].key !in reclaimables then Kept
      else Removed)
  {
    assert forall i :: 0 <= i < |family| ==> family[i].key == FamilyKeys(family)[i] == keys[i];
    if i :| 0 <= i < |keys| && StartedAt(active, i) != (keys[i] in live) {
      assert family[i].active != (family[i].key in live);
    }
    if i :| 0 <= i < |keys| && keys[i] in live && keys[i] !in reclaimables {
      assert family[i].key in live && family[i].key !in reclaimables;
    }
  }

  /**
   * In every run that starts owners as the allocator issues them, every operation is answered as the trace before it
   * demands, so that a reused owner is never met; no key is issued twice; and the index holds exactly the lanes that
   * were inserted and not removed, inverse to the vector.
   */
  method Run(allocator: IdentityAllocator, capacity: nat, ops: seq<LaneOp>)
    returns (slots: LaneSlots, trace: seq<LaneEvent>)
    requires allocator.Valid()
    modifies allocator
    ensures slots.Valid() && allocator.Valid() && OpsOf(trace) == ops && Answers(trace)
    ensures slots.slots.Keys == LiveIn(trace)
    ensures Accounted(IssuedIn(trace), old(allocator.issued), allocator.issued)
    ensures forall i :: 0 <= i < |trace| && trace[i].answer.Inserting? ==> !trace[i].answer.insertion.OwnerReused?
    ensures forall i :: 0 <= i < |trace| && RefusedGroup(trace[i]) ==> !allocator.HasRoom(trace[i].op.n)
  {
    hide Answers, Accounted, IssuedIn, LiveIn, Offered, OnlyOffered, GroupKeys, GroupsIn, OpsOf, LaneSlots.Valid;
    var lanes := new ClusterLanes(allocator, capacity);
    NoOps(ops);
    for i := 0 to |ops|
      invariant lanes.Valid() && OpsOf(lanes.trace) == ops[..i] && fresh(lanes) && fresh(lanes.slots)
    {
      assert ops[..i + 1] == ops[..i] + [ops[i]];
      lanes.Perform(ops[i]);
    }
    assert ops[..|ops|] == ops;
    slots, trace := lanes.slots, lanes.trace;
    NoneReused(trace);
  }

  lemma NoOps(ops: seq<LaneOp>)
    ensures OpsOf([]) == [] == ops[..0]
  {
  }

  lemma {:induction false} NoneReused(trace: seq<LaneEvent>)
    requires Answers(trace)
    ensures forall i :: 0 <= i < |trace| && trace[i].answer.Inserting? ==> !trace[i].answer.insertion.OwnerReused?
  {
    if trace != [] {
      var front, last := trace[..|trace| - 1], trace[|trace| - 1];
      NoneReused(front);
      assert forall i :: 0 <= i < |front| ==> trace[i] == front[i];
    }
  }
}
