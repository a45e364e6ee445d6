/** The ascending listing of a finite set of keys, which is what iterating a `BTreeMap` yields. */
module OrderedKeys {

  ghost predicate Ascending(ks: seq<nat>) {
    forall i, j :: 0 <= i < j < |ks| ==> ks[i] < ks[j]
  }

  /** `ks` names exactly the members of `s`, each once, in ascending order. */
  ghost predicate Lists(ks: seq<nat>, s: set<nat>) {
    && Ascending(ks)
    && (forall i :: 0 <= i < |ks| ==> ks[i] in s)
    && (forall k :: k in s ==> k in ks)
  }

  predicate IsLeast(s: set<nat>, k: nat) {
    k in s && forall j :: j in s ==> k <= j
  }

  predicate IsGreatest(s: set<nat>, k: nat) {
    k in s && forall j :: j in s ==> j <= k
  }

  function DropAt<A>(a: seq<A>, i: nat): (r: seq<A>)
    requires i < |a|
    ensures |r| == |a| - 1
    ensures forall j :: 0 <= j < |r| ==> r[j] == a[if j < i then j else j + 1]
  {
    a[..i] + a[i + 1..]
  }

  lemma ListsWithout(ks: seq<nat>, s: set<nat>, i: nat)
    requires Lists(ks, s) && i < |ks|
    ensures Lists(DropAt(ks, i), s - {ks[i]})
  {
    var r := DropAt(ks, i);
    forall k | k in s - {ks[i]} ensures k in r {
      var j :| 0 <= j < |ks| && ks[j] == k;
      assert r[if j < i then j else j - 1] == k;
    }
  }

  lemma ListsWith(ks: seq<nat>, s: set<nat>, k: nat)
    requires Lists(ks, s) && forall j :: j in s ==> j < k
    ensures Lists(ks + [k], s + {k})
  {
    var r := ks + [k];
    assert r[|ks|] == k;
    forall j | j in s + {k} ensures j in r {
      if j != k {
        assert j in ks;
      }
    }
  }

  lemma FirstIsLeast(ks: seq<nat>, s: set<nat>)
    requires Lists(ks, s) && s != {}
    ensures ks != [] && IsLeast(s, ks[0])
    ensures forall k :: IsLeast(s, k) ==> k == ks[0]
  {
    var any :| any in s;
    assert any in ks;
    forall j | j in s ensures ks[0] <= j {
      assert j in ks;
    }
  }

  lemma LastIsGreatest(ks: seq<nat>, s: set<nat>)
    requires Lists(ks, s) && s != {}
    ensures ks != [] && IsGreatest(s, ks[|ks| - 1])
    ensures forall k :: IsGreatest(s, k) ==> k == ks[|ks| - 1]
  {
    var any :| any in s;
    assert any in ks;
    forall j | j in s ensures j <= ks[|ks| - 1] {
      assert j in ks;
    }
  }

  /** An ascending listing is as long as the set it lists. */
  lemma {:induction false} ListingLength(ks: seq<nat>, s: set<nat>)
    requires Lists(ks, s)
    ensures |ks| == |s|
    decreases |ks|
  {
    if ks == [] {
      assert s == {};
    } else {
      var last := |ks| - 1;
      assert ks[last] in s;
      ListsWithout(ks, s, last);
      ListingLength(DropAt(ks, last), s - {ks[last]});
    }
  }
}
