/** Sorting by rank, as the standard library's sort does it, and finding equal neighbours afterwards. */
module Sorting {
  /** Lexicographic rank of an element. */
  type Rank = (int, int)

  predicate Below(a: Rank, b: Rank) { a.0 < b.0 || (a.0 == b.0 && a.1 < b.1) }

  predicate AtMost(a: Rank, b: Rank) { a == b || Below(a, b) }

  ghost predicate Ascends<T>(rank: T -> Rank, s: seq<T>) {
    forall i, j :: 0 <= i < j < |s| ==> AtMost(rank(s[i]), rank(s[j]))
  }

  /** Strictly ascending: no two elements share a rank. */
  ghost predicate Climbs<T>(rank: T -> Rank, s: seq<T>) {
    forall i, j :: 0 <= i < j < |s| ==> Below(rank(s[i]), rank(s[j]))
  }

  function Insert<T>(rank: T -> Rank, x: T, s: seq<T>): (r: seq<T>)
    ensures multiset(r) == multiset(s) + multiset{x}
    ensures forall i :: 0 <= i < |r| ==> r[i] == x || r[i] in s
  {
    if s == [] then [x]
    else if AtMost(rank(x), rank(s[0])) then [x] + s
    else
      var rest := Insert(rank, x, s[1..]);
      assert s == [s[0]] + s[1..];
      [s[0]] + rest
  }

  lemma {:induction false} InsertAscends<T>(rank: T -> Rank, x: T, s: seq<T>)
    requires Ascends(rank, s)
    ensures Ascends(rank, Insert(rank, x, s))
  {
    if s != [] && !AtMost(rank(x), rank(s[0])) {
      InsertAscends(rank, x, s[1..]);
      var rest := Insert(rank, x, s[1..]);
      forall i | 0 <= i < |rest| ensures AtMost(rank(s[0]), rank(rest[i])) {
        if rest[i] != x {
          var k :| 0 <= k < |s[1..]| && s[1..][k] == rest[i];
          assert s[k + 1] == rest[i];
        }
      }
    }
  }

  function Sort<T>(rank: T -> Rank, s: seq<T>): (r: seq<T>)
    ensures multiset(r) == multiset(s) && Ascends(rank, r) && |r| == |s|
  {
    if s == [] then []
    else
      assert s == [s[0]] + s[1..];
      var rest := Sort(rank, s[1..]);
      InsertAscends(rank, s[0], rest);
      var r := Insert(rank, s[0], rest);
      assert |r| == |multiset(r)| && |s| == |multiset(s)|;
      r
  }

  /** The first pair of equal neighbours at or after `from`, as `windows(2)` finds it. */
  function TwinFrom<T>(rank: T -> Rank, s: seq<T>, from: nat): (i: int)
    ensures i == -1 || (from <= i < |s| - 1 && rank(s[i]) == rank(s[i + 1]))
    ensures forall k :: from <= k < |s| - 1 && (i == -1 || k < i) ==> rank(s[k]) != rank(s[k + 1])
    decreases |s| - from
  {
    if from + 1 >= |s| then -1
    else if rank(s[from]) == rank(s[from + 1]) then from
    else TwinFrom(rank, s, from + 1)
  }

  function TwinAt<T>(rank: T -> Rank, s: seq<T>): (i: int)
    ensures i == -1 || (0 <= i < |s| - 1 && rank(s[i]) == rank(s[i + 1]))
    ensures forall k :: 0 <= k < |s| - 1 && (i == -1 || k < i) ==> rank(s[k]) != rank(s[k + 1])
  {
    TwinFrom(rank, s, 0)
  }

  /** A sorted list has no equal neighbours exactly when it climbs. */
  lemma NoTwinsMeansClimbs<T>(rank: T -> Rank, s: seq<T>)
    requires Ascends(rank, s)
    ensures TwinAt(rank, s) == -1 <==> Climbs(rank, s)
  {
    if TwinAt(rank, s) == -1 {
      forall i, j | 0 <= i < j < |s| ensures Below(rank(s[i]), rank(s[j])) {
        assert AtMost(rank(s[i]), rank(s[i + 1])) && rank(s[i]) != rank(s[i + 1]);
        if i + 1 < j {
          assert AtMost(rank(s[i + 1]), rank(s[j]));
        }
      }
    } else {
      var i := TwinAt(rank, s);
      assert !Below(rank(s[i]), rank(s[i + 1]));
    }
  }

  /** `s` without the element at `i`. */
  function Except<T>(s: seq<T>, i: nat): seq<T>
    requires i < |s|
  {
    s[..i] + s[i + 1..]
  }

  lemma ExceptMultiset<T>(s: seq<T>, i: nat)
    requires i < |s|
    ensures multiset(Except(s, i)) == multiset(s) - multiset{s[i]}
  {
    assert s == s[..i] + [s[i]] + s[i + 1..];
  }

  lemma PositionOf<T>(s: seq<T>, x: T) returns (i: nat)
    requires x in multiset(s)
    ensures i < |s| && s[i] == x
  {
    i :| 0 <= i < |s| && s[i] == x;
  }

  lemma SameFirst<T>(rank: T -> Rank, s: seq<T>, t: seq<T>)
    requires Climbs(rank, s) && Ascends(rank, t) && multiset(s) == multiset(t) && s != [] && t != []
    ensures s[0] == t[0]
  {
    assert s[0] in multiset(t) && t[0] in multiset(s);
    var i := PositionOf(s, t[0]);
    var j := PositionOf(t, s[0]);
    assert AtMost(rank(s[0]), rank(s[i]));
    assert AtMost(rank(t[0]), rank(t[j]));
  }

  /** Among elements with distinct ranks a sorted list is determined by its elements. */
  lemma {:induction false} SortedIsUnique<T>(rank: T -> Rank, s: seq<T>, t: seq<T>)
    requires Climbs(rank, s) && Ascends(rank, t) && multiset(s) == multiset(t) && |s| == |t|
    ensures s == t
    decreases |s|
  {
    hide Below, AtMost;
    if s != [] {
      SameFirst(rank, s, t);
      TailMultiset(s);
      TailMultiset(t);
      SortedIsUnique(rank, s[1..], t[1..]);
    }
  }

  lemma TailMultiset<T>(s: seq<T>)
    requires s != []
    ensures s == [s[0]] + s[1..] && multiset(s[1..]) == multiset(s) - multiset{s[0]}
  {
    assert s == [s[0]] + s[1..];
  }

  /** Distinct ranks are a matter of the elements, not of their order. */
  lemma ClimbsWhenSorted<T>(rank: T -> Rank, s: seq<T>)
    ensures Climbs(rank, Sort(rank, s)) <==> DistinctRanks(rank, s)
  {
    var r := Sort(rank, s);
    if DistinctRanks(rank, s) {
      Rearranged(rank, s, r);
      NoTwinsMeansClimbs(rank, r);
    }
    if Climbs(rank, r) {
      assert DistinctRanks(rank, r);
      Rearranged(rank, r, s);
    }
  }

  ghost predicate DistinctRanks<T>(rank: T -> Rank, s: seq<T>) {
    forall i, j :: 0 <= i < j < |s| ==> rank(s[i]) != rank(s[j])
  }

  lemma DistinctExcept<T>(rank: T -> Rank, s: seq<T>, i: nat)
    requires DistinctRanks(rank, s) && i < |s|
    ensures DistinctRanks(rank, Except(s, i))
    ensures forall k :: 0 <= k < |Except(s, i)| ==> rank(Except(s, i)[k]) != rank(s[i])
  {
    var others := Except(s, i);
    assert forall k :: 0 <= k < |others| ==> others[k] == s[if k < i then k else k + 1];
  }

  lemma {:induction false} Rearranged<T>(rank: T -> Rank, s: seq<T>, t: seq<T>)
    requires DistinctRanks(rank, s) && multiset(s) == multiset(t)
    ensures DistinctRanks(rank, t)
    decreases |t|
  {
    if t != [] {
      assert t[0] in multiset(s);
      var i := PositionOf(s, t[0]);
      ExceptMultiset(s, i);
      TailMultiset(t);
      DistinctExcept(rank, s, i);
      Rearranged(rank, Except(s, i), t[1..]);
      forall k | 0 <= k < |t[1..]| ensures rank(t[1..][k]) != rank(t[0]) {
        assert t[1..][k] in multiset(Except(s, i));
        var m := PositionOf(Except(s, i), t[1..][k]);
      }
      ConsDistinct(rank, t);
    }
  }

  lemma ConsDistinct<T>(rank: T -> Rank, t: seq<T>)
    requires t != [] && DistinctRanks(rank, t[1..])
    requires forall k :: 0 <= k < |t[1..]| ==> rank(t[1..][k]) != rank(t[0])
    ensures DistinctRanks(rank, t)
  {
    forall i, j | 0 <= i < j < |t| ensures rank(t[i]) != rank(t[j]) {
      assert t[j] == t[1..][j - 1];
      if i > 0 { assert t[i] == t[1..][i - 1]; }
    }
  }

  lemma SameMembers<T>(s: seq<T>, t: seq<T>)
    requires multiset(s) == multiset(t)
    ensures forall x :: x in s <==> x in t
  {
    forall x ensures x in s <==> x in t {
      assert x in s <==> x in multiset(s);
      assert x in t <==> x in multiset(t);
    }
  }
}
