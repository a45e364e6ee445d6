/**
 * Lane slots of the cluster runtime and the identities they are keyed by:
 * src/reactor/direct_plaintext/cluster_runtime.rs and src/reactor/bornera/lane_identity.rs.
 */
module LaneIndexes {
  import opened Common
  import opened Sorting

  /** The key a lane is found by. */
  datatype LaneKey = LaneKey(endpoint: nat, lane: nat)

  datatype LaneOwner = LaneOwner(key: LaneKey, connection: nat, timer: nat)

  datatype IdentityError = EmptyLaneGroup | EndpointExhausted | LaneExhausted

  datatype Reservation = Reserved(endpoint: nat, owners: seq<LaneOwner>) | NoIdentity(error: IdentityError)

  /** `None` once the domain is used up. */
  class IdentityAllocator {
    var nextEndpoint: Option<nat>
    var nextLane: Option<nat>
    ghost var issued: set<LaneKey>

    /** Nothing issued reaches the next endpoint or the next lane. */
    ghost predicate Valid()
      reads this
    {
      && (nextEndpoint.Some? ==> 1 <= nextEndpoint.value <= U64_MAX)
      && (nextLane.Some? ==> 1 <= nextLane.value <= U32_MAX)
      && (forall k :: k in issued && nextEndpoint.Some? ==> k.endpoint < nextEndpoint.value)
      && (forall k :: k in issued && nextLane.Some? ==> k.lane < nextLane.value)
    }

    constructor ()
      ensures Valid() && issued == {}
    {
      nextEndpoint, nextLane, issued := Some(1), Some(1), {};
    }

    /** Identities are left for a group of `n` lanes. */
    ghost predicate HasRoom(n: nat)
      reads this
    {
      nextEndpoint.Some? && nextLane.Some? && n > 0 && nextLane.value + n - 1 <= U32_MAX
    }

    /** A group of lanes under a new endpoint: no identity was issued before, and a refusal changes nothing. */
    method ReserveEndpointLanes(n: nat) returns (r: Reservation)
      requires Valid()
      modifies this
      ensures Valid()
      ensures r.NoIdentity? ==> nextEndpoint == old(nextEndpoint) && nextLane == old(nextLane) && issued == old(issued)
      ensures r.Reserved? ==>
        && |r.owners| == n > 0
        && (forall i :: 0 <= i < n ==>
              && r.owners[i].key.endpoint == r.endpoint
              && r.owners[i].connection == r.owners[i].timer == r.owners[i].key.lane <= U32_MAX)
        && (forall i, j :: 0 <= i < j < n ==> r.owners[i].key.lane < r.owners[j].key.lane)
        && (forall k :: k in old(issued) ==> k.endpoint != r.endpoint)
        && (forall i, k :: 0 <= i < n && k in old(issued) ==> k.lane != r.owners[i].key.lane)
        && issued == old(issued) + set i | 0 <= i < n :: r.owners[i].key
      ensures r.Reserved? <==> old(HasRoom(n))
      ensures forall m: nat :: HasRoom(m) ==> old(HasRoom(m))
      ensures r == NoIdentity(EmptyLaneGroup) <==> old(nextEndpoint).Some? && old(nextLane).Some? && n == 0
    {
      if nextEndpoint.None? {
        return NoIdentity(EndpointExhausted);
      }
      if nextLane.None? || n > U32_MAX {
        return NoIdentity(LaneExhausted);
      }
      if n == 0 {
        return NoIdentity(EmptyLaneGroup);
      }
      var first, endpoint := nextLane.value, nextEndpoint.value;
      var last := first + (n - 1);
      if last > U32_MAX {
        return NoIdentity(LaneExhausted);
      }
      var owners: seq<LaneOwner> := [];
      var value := first;
      for i := 0 to n
        invariant |owners| == i && value == if first + i > U32_MAX then U32_MAX else first + i
        invariant forall k :: 0 <= k < i ==> owners[k] == LaneOwner(LaneKey(endpoint, first + k), first + k, first + k)
      {
        owners := owners + [LaneOwner(LaneKey(endpoint, value), value, value)];
        value := if value + 1 > U32_MAX then U32_MAX else value + 1;
      }
      nextEndpoint := if endpoint + 1 > U64_MAX then None else Some(endpoint + 1);
      nextLane := if last + 1 > U32_MAX then None else Some(last + 1);
      issued := issued + set i | 0 <= i < n :: owners[i].key;
      r := Reserved(endpoint, owners);
    }
  }

  datatype Removal = Removed | Kept | SeedRefused | FamilyRefused | StaleRefused | DivergedRefused

  /** One traffic class of a broker's family: its reserved lane and whether it was started. */
  datatype FamilyLane = FamilyLane(key: LaneKey, active: bool)

  /** A lane to take out, at the place the index gave. */
  datatype Place = Place(index: nat, key: LaneKey)

  /** Highest place first. */
  function PlaceRank(p: Place): Rank {
    var index: int := p.index;
    (-index, 0)
  }

  function FamilyKeys(family: seq<FamilyLane>): seq<LaneKey> {
    seq(|family|, i requires 0 <= i < |family| => family[i].key)
  }

  function PlaceKeys(places: seq<Place>): seq<LaneKey> {
    seq(|places|, i requires 0 <= i < |places| => places[i].key)
  }

  datatype Insertion = Inserted(key: LaneKey) | CapacityExceeded | OwnerReused | StartFailed

  /** The lanes vector and its index; a lane is known here by its key. */
  class LaneSlots {
    const capacity: nat
    var lanes: seq<LaneKey>
    var slots: map<LaneKey, nat>

    /** The index and the vector are inverse to each other. */
    ghost predicate Valid()
      reads this
    {
      && |lanes| <= capacity
      && (forall i :: 0 <= i < |lanes| ==> lanes[i] in slots && slots[lanes[i]] == i)
      && (forall k :: k in slots ==> slots[k] < |lanes| && lanes[slots[k]] == k)
    }

    constructor (capacity: nat)
      ensures Valid() && lanes == [] && this.capacity == capacity
    {
      this.capacity, lanes, slots := capacity, [], map[];
    }

    /** `insert_reserved`: refused without effect, or appended and indexed. */
    method Insert(owner: LaneOwner) returns (r: Insertion)
      requires Valid()
      modifies this
      ensures Valid()
      ensures r.Inserted? ==> r.key == owner.key && owner.key !in old(slots) && lanes == old(lanes) + [owner.key]
      ensures r.Inserted? ==> slots.Keys == old(slots).Keys + {owner.key}
      ensures !r.Inserted? ==> lanes == old(lanes) && slots == old(slots)
      ensures r.CapacityExceeded? <==> |old(lanes)| >= capacity
      ensures r.OwnerReused? <==> |old(lanes)| < capacity && owner.key in old(slots)
    {
      if |lanes| + 1 > capacity {
        return CapacityExceeded;
      }
      if owner.key in slots {
        return OwnerReused;
      }
      var started: bool := *;
      if !started {
        return StartFailed;
      }
      var index := |lanes|;
      lanes := lanes + [owner.key];
      slots := slots[owner.key := index];
      r := Inserted(owner.key);
    }

    method Index(key: LaneKey) returns (index: Option<nat>)
      requires Valid()
      ensures index.Some? <==> key in lanes
      ensures index.Some? ==> index.value < |lanes| && lanes[index.value] == key
    {
      if key in slots {
        index := Some(slots[key]);
      } else {
        index := None;
      }
    }

    /** `remove_at`: the last lane takes the freed place and its index follows it. */
    method RemoveAt(key: LaneKey, index: nat)
      requires Valid() && index < |lanes| && lanes[index] == key
      modifies this
      ensures Valid()
      ensures multiset(lanes) == multiset(old(lanes)) - multiset{key}
      ensures lanes == SwapRemove(old(lanes), index)
      ensures key !in slots && slots.Keys == old(slots).Keys - {key}
    {
      SwapRemoved(lanes, index);
      slots := slots - {key};
      lanes := SwapRemove(lanes, index);
      if index < |lanes| {
        slots := slots[lanes[index] := index];
      }
    }

    /** `remove_terminal`: neither the seed nor a family's lane leaves alone, and only a reclaimable one at all. */
    method Remove(key: LaneKey, seed: Option<LaneKey>, families: set<LaneKey>, reclaimable: bool) returns (r: Removal)
      requires Valid()
      modifies this
      ensures Valid()
      ensures r == (
        if seed == Some(key) then SeedRefused
        else if key in families then FamilyRefused
        else if key !in old(slots) then StaleRefused
        else if !reclaimable then Kept
        else Removed)
      ensures r.Removed? ==> slots.Keys == old(slots).Keys - {key}
      ensures !r.Removed? ==> lanes == old(lanes) && slots == old(slots)
    {
      if seed == Some(key) {
        return SeedRefused;
      }
      if key in families {
        return FamilyRefused;
      }
      var index := Index(key);
      if index.None? {
        return StaleRefused;
      }
      if !reclaimable {
        return Kept;
      }
      RemoveAt(key, index.value);
      r := Removed;
    }

    /** Every place is that of its lane, and no lane is listed twice. */
    ghost predicate Located(places: seq<Place>)
      reads this
    {
      && (forall i :: 0 <= i < |places| ==> places[i].index < |lanes| && lanes[places[i].index] == places[i].key)
      && forall i, j :: 0 <= i < j < |places| ==> places[i].key != places[j].key
    }

    /** `family_removals`: the places of the started lanes, unless the family and the index disagree. */
    method FamilyPlaces(family: seq<FamilyLane>) returns (places: Option<seq<Place>>)
      requires Valid() && Distinct(FamilyKeys(family))
      ensures places.Some? <==> forall i :: 0 <= i < |family| ==> (family[i].active <==> family[i].key in slots)
      ensures places.Some? ==>
        && Located(places.value)
        && forall k :: k in PlaceKeys(places.value) <==> k in FamilyKeys(family) && k in slots
    {
      var found: seq<Place> := [];
      for i := 0 to |family|
        invariant Located(found)
        invariant forall j :: 0 <= j < i ==> (family[j].active <==> family[j].key in slots)
        invariant forall k :: k in PlaceKeys(found) <==> k in FamilyKeys(family)[..i] && k in slots
      {
        var index := Index(family[i].key);
        if family[i].active != index.Some? {
          return None;
        }
        ghost var keys := FamilyKeys(family);
        assert keys[..i + 1] == keys[..i] + [family[i].key];
        if index.Some? {
          NotBefore(keys, i);
          ghost var before := PlaceKeys(found);
          assert forall j :: 0 <= j < |found| ==> before[j] in before && before[j] == found[j].key;
          found := found + [Place(index.value, family[i].key)];
          assert PlaceKeys(found) == before + [family[i].key];
        }
      }
      assert FamilyKeys(family)[..|family|] == FamilyKeys(family);
      places := Some(found);
    }

    /**
     * `remove_terminal_family`: all started lanes of a family leave together or none does. Taking the highest
     * place first is what keeps the other places right while lanes move.
     */
    method RemoveFamily(family: seq<FamilyLane>, reclaimable: set<LaneKey>) returns (r: Removal)
      requires Valid() && Distinct(FamilyKeys(family))
      modifies this
      ensures Valid()
      ensures r == (
        if exists i :: 0 <= i < |family| && family[i].active != (family[i].key in old(slots)) then DivergedRefused
        else if exists i :: 0 <= i < |family| && family[i].key in old(slots) && family[i].key !in reclaimable then Kept
        else Removed)
      ensures r.Removed? ==>
        forall k :: k in slots <==> k in old(slots) && k !in FamilyKeys(family)
      ensures !r.Removed? ==> lanes == old(lanes) && slots == old(slots)
    {
      var places := FamilyPlaces(family);
      if places.None? {
        return DivergedRefused;
      }
      var found := places.value;
      if k :| 0 <= k < |found| && found[k].key !in reclaimable {
        assert PlaceKeys(found)[k] in PlaceKeys(found);
        var i :| 0 <= i < |family| && FamilyKeys(family)[i] == found[k].key;
        assert family[i].key == found[k].key;
        return Kept;
      }
      assert forall k :: k in PlaceKeys(found) ==> k in reclaimable;
      assert forall i :: 0 <= i < |family| ==> family[i].key == FamilyKeys(family)[i];
      RemovePlaces(found);
      r := Removed;
    }

    method RemovePlaces(places: seq<Place>)
      requires Valid() && Located(places)
      modifies this
      ensures Valid()
      ensures forall k :: k in slots <==> k in old(slots) && k !in PlaceKeys(places)
    {
      hide Sort, Valid;
      var sorted := Sort(PlaceRank, places);
      SortedPlaces(places, sorted, lanes);
      ghost var keys := PlaceKeys(sorted);
      for i := 0 to |sorted|
        invariant Valid() && |lanes| == |old(lanes)| - i
        invariant forall j :: i <= j < |sorted| ==>
          sorted[j].index < |lanes| && lanes[sorted[j].index] == sorted[j].key
        invariant forall k :: k in slots <==> k in old(slots) && k !in keys[..i]
      {
        RemoveAt(sorted[i].key, sorted[i].index);
        assert keys[..i + 1] == keys[..i] + [sorted[i].key];
      }
      assert keys[..|sorted|] == keys;
    }
  }

  lemma NotBefore(keys: seq<LaneKey>, i: nat)
    requires Distinct(keys) && i < |keys|
    ensures keys[i] !in keys[..i]
  {
  }

  /** Located places, sorted, stand at strictly falling indices and name the same lanes. */
  lemma SortedPlaces(places: seq<Place>, sorted: seq<Place>, lanes: seq<LaneKey>)
    requires sorted == Sort(PlaceRank, places)
    requires forall i :: 0 <= i < |places| ==> places[i].index < |lanes| && lanes[places[i].index] == places[i].key
    requires forall i, j :: 0 <= i < j < |places| ==> places[i].key != places[j].key
    ensures forall i :: 0 <= i < |sorted| ==> sorted[i].index < |lanes| && lanes[sorted[i].index] == sorted[i].key
    ensures forall i, j :: 0 <= i < j < |sorted| ==> sorted[i].index > sorted[j].index
    ensures forall k :: k in PlaceKeys(sorted) <==> k in PlaceKeys(places)
  {
    hide Sort;
    SameMembers(sorted, places);
    forall i | 0 <= i < |sorted| ensures sorted[i].index < |lanes| && lanes[sorted[i].index] == sorted[i].key {
      assert sorted[i] in sorted;
    }
    forall i, j | 0 <= i < j < |sorted| ensures sorted[i].index > sorted[j].index {
      assert AtMost(PlaceRank(sorted[i]), PlaceRank(sorted[j]));
      if sorted[i].index == sorted[j].index {
        Twice(sorted, i, j);
        Once(places, sorted[i]);
      }
    }
    SameKeys(sorted, places);
    SameKeys(places, sorted);
  }

  lemma SameKeys(a: seq<Place>, b: seq<Place>)
    requires forall p :: p in a ==> p in b
    ensures forall k :: k in PlaceKeys(a) ==> k in PlaceKeys(b)
  {
    forall k | k in PlaceKeys(a) ensures k in PlaceKeys(b) {
      var i :| 0 <= i < |a| && PlaceKeys(a)[i] == k;
      assert a[i] in b;
      var j :| 0 <= j < |b| && b[j] == a[i];
      assert PlaceKeys(b)[j] == k;
    }
  }

  lemma Twice<T>(s: seq<T>, i: nat, j: nat)
    requires i < j < |s| && s[i] == s[j]
    ensures multiset(s)[s[i]] >= 2
  {
    assert s == s[..j] + [s[j]] + s[j + 1..];
    assert s[..j][i] == s[i];
  }

  lemma {:induction false} Once(places: seq<Place>, p: Place)
    requires forall i, j :: 0 <= i < j < |places| ==> places[i].key != places[j].key
    ensures multiset(places)[p] <= 1
  {
    if places != [] {
      assert places == [places[0]] + places[1..];
      Once(places[1..], p);
    }
  }

  function SwapRemove<T>(s: seq<T>, i: nat): (r: seq<T>)
    requires i < |s|
    ensures |r| == |s| - 1
    ensures forall k :: 0 <= k < |r| ==> r[k] == if k == i then s[|s| - 1] else s[k]
  {
    s[i := s[|s| - 1]][..|s| - 1]
  }

  lemma SwapRemoved<T>(s: seq<T>, i: nat)
    requires i < |s|
    ensures multiset(SwapRemove(s, i)) == multiset(s) - multiset{s[i]}
  {
    var n := |s| - 1;
    if i == n {
      assert s == SwapRemove(s, i) + [s[n]];
    } else {
      var a, b := s[..i], s[i + 1..n];
      assert s == a + [s[i]] + b + [s[n]];
      assert SwapRemove(s, i) == a + [s[n]] + b;
      MovedForward(a, s[i], b, s[n]);
    }
  }

  lemma MovedForward<T>(a: seq<T>, x: T, b: seq<T>, y: T)
    ensures multiset(a + [y] + b) == multiset(a + [x] + b + [y]) - multiset{x}
  {
    assert multiset(a + [y] + b) == multiset(a) + multiset{y} + multiset(b);
    assert multiset(a + [x] + b + [y]) == multiset(a) + multiset{x} + multiset(b) + multiset{y};
  }

  ghost predicate Distinct(keys: seq<LaneKey>) {
    forall i, j :: 0 <= i < j < |keys| ==> keys[i] != keys[j]
  }

  function Keys(owners: seq<LaneOwner>): (r: seq<LaneKey>)
    ensures |r| == |owners| && forall i :: 0 <= i < |owners| ==> r[i] == owners[i].key
  {
    seq(|owners|, i requires 0 <= i < |owners| => owners[i].key)
  }
}
