/** `validate_logical_range` of src/metadata/partition_snapshot.rs: the partitions of a topic are 0..n-1. */
module PartitionRange {
  import opened Common
  import opened Sorting

  datatype RangeError =
    | PartitionsEmpty
    | InvalidPartitionId(index: int)
    | DuplicatePartition(partition: nat)
    | PartitionMissing(expected: nat, next: nat)

  function Identity(i: int): Rank { (i, 0) }

  /** 0, 1, ..., n-1. */
  function UpTo(n: nat): (r: seq<int>)
    ensures |r| == n && forall i :: 0 <= i < n ==> r[i] == i
  {
    seq(n, i => i)
  }

  /** Each of 0..n-1 occurs exactly once. */
  predicate LogicalRange(indices: seq<int>) {
    indices != [] && multiset(indices) == multiset(UpTo(|indices|))
  }

  method ValidateLogicalRange(indices: seq<int>) returns (failure: Option<RangeError>)
    ensures failure.None? <==> LogicalRange(indices)
    ensures failure == Some(PartitionsEmpty) <==> indices == []
    ensures failure.Some? && failure.value.InvalidPartitionId? ==>
      failure.value.index < 0 && failure.value.index in indices
    ensures failure.Some? && failure.value.DuplicatePartition? ==>
      multiset(indices)[failure.value.partition] >= 2
    ensures failure.Some? && failure.value.PartitionMissing? ==>
      failure.value.expected !in indices && failure.value.next in indices
  {
    hide LogicalRange;
    if indices == [] {
      EmptyIsNoRange();
      return Some(PartitionsEmpty);
    }
    var partitions: seq<int> := [];
    for i := 0 to |indices|
      invariant partitions == indices[..i]
      invariant forall k :: 0 <= k < i ==> indices[k] >= 0
    {
      if indices[i] < 0 {
        RangeHasNoNegative(indices, i);
        return Some(InvalidPartitionId(indices[i]));
      }
      partitions := partitions + [indices[i]];
    }
    assert partitions == indices;
    failure := CheckIndices(partitions);
  }

  /** Sort, look for equal neighbours, then compare with the expected index position by position. */
  method CheckIndices(indices: seq<int>) returns (failure: Option<RangeError>)
    requires indices != [] && forall k :: 0 <= k < |indices| ==> indices[k] >= 0
    ensures failure.None? <==> LogicalRange(indices)
    ensures failure.Some? ==> failure.value.DuplicatePartition? || failure.value.PartitionMissing?
    ensures failure.Some? && failure.value.DuplicatePartition? <==> !DistinctRanks(Identity, indices)
    ensures failure.Some? && failure.value.DuplicatePartition? ==>
      multiset(indices)[failure.value.partition] >= 2
    ensures failure.Some? && failure.value.PartitionMissing? ==>
      failure.value.expected !in indices && failure.value.next in indices
  {
    hide Sort, TwinAt, UpTo;
    var sorted := Sort(Identity, indices);
    SortedRange(indices);
    NonNegative(indices, sorted);
    ClimbsWhenSorted(Identity, indices);
    NoTwinsMeansClimbs(Identity, sorted);
    var twin := TwinAt(Identity, sorted);
    if twin != -1 {
      Twice(sorted, twin);
      TwinIsNoRange(indices, twin);
      return Some(DuplicatePartition(sorted[twin]));
    }
    for expected := 0 to |sorted|
      invariant forall k :: 0 <= k < expected ==> sorted[k] == k
    {
      if sorted[expected] != expected {
        Gap(sorted, expected);
        SameMembers(indices, sorted);
        return Some(PartitionMissing(expected, sorted[expected]));
      }
    }
    assert sorted == UpTo(|indices|);
    return None;
  }

  lemma TwinIsNoRange(indices: seq<int>, twin: nat)
    requires twin + 1 < |indices| && Sort(Identity, indices)[twin] == Sort(Identity, indices)[twin + 1]
    ensures Sort(Identity, indices) != UpTo(|indices|)
  {
    hide Sort;
  }

  /** The indices are the range exactly when sorting them gives the range. */
  lemma SortedRange(indices: seq<int>)
    ensures multiset(indices) == multiset(UpTo(|indices|)) <==> Sort(Identity, indices) == UpTo(|indices|)
  {
    var sorted := Sort(Identity, indices);
    if multiset(indices) == multiset(UpTo(|indices|)) {
      SortedIsUnique(Identity, UpTo(|indices|), sorted);
    }
  }

  lemma EmptyIsNoRange()
    ensures !LogicalRange([])
  {
  }

  lemma RangeHasNoNegative(indices: seq<int>, i: nat)
    requires i < |indices| && indices[i] < 0
    ensures !LogicalRange(indices)
  {
    assert indices[i] in multiset(indices);
    assert indices[i] !in UpTo(|indices|);
  }

  lemma NonNegative(indices: seq<int>, sorted: seq<int>)
    requires multiset(indices) == multiset(sorted) && forall k :: 0 <= k < |indices| ==> indices[k] >= 0
    ensures forall k :: 0 <= k < |sorted| ==> sorted[k] >= 0
  {
    forall k | 0 <= k < |sorted| ensures sorted[k] >= 0 {
      assert sorted[k] in multiset(indices);
    }
  }

  lemma Twice(sorted: seq<int>, i: nat)
    requires i + 1 < |sorted| && sorted[i] == sorted[i + 1]
    ensures multiset(sorted)[sorted[i]] >= 2
  {
    assert sorted == sorted[..i] + [sorted[i], sorted[i + 1]] + sorted[i + 2..];
  }

  /** The first place where a climbing list leaves the range names a partition nobody has. */
  lemma Gap(sorted: seq<int>, expected: nat)
    requires Climbs(Identity, sorted) && expected < |sorted| && sorted[expected] != expected
    requires (forall k :: 0 <= k < expected ==> sorted[k] == k) && sorted[expected] >= 0
    ensures expected !in sorted && sorted[expected] > expected
  {
    if expected > 0 {
      assert Below(Identity(sorted[expected - 1]), Identity(sorted[expected]));
    }
    forall k | expected <= k < |sorted| ensures sorted[k] > expected {
      if k > expected {
        assert Below(Identity(sorted[expected]), Identity(sorted[k]));
      }
    }
  }
}
