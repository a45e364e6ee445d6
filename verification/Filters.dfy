/** Keeping the members of a list that satisfy a test, in order. */
module Filters {

  function Keep<A>(p: A -> bool, s: seq<A>): (r: seq<A>)
    ensures |r| <= |s|
    ensures forall i :: 0 <= i < |r| ==> p(r[i])
  {
    if s == [] then [] else (if p(s[0]) then [s[0]] else []) + Keep(p, s[1..])
  }

  lemma {:induction false} KeepConcat<A>(p: A -> bool, s: seq<A>, t: seq<A>)
    ensures Keep(p, s + t) == Keep(p, s) + Keep(p, t)
  {
    if s == [] {
      assert s + t == t;
    } else {
      assert (s + t)[1..] == s[1..] + t;
      KeepConcat(p, s[1..], t);
    }
  }

  lemma {:induction false} KeepAll<A>(p: A -> bool, s: seq<A>)
    requires forall i :: 0 <= i < |s| ==> p(s[i])
    ensures Keep(p, s) == s
  {
    if s != [] {
      KeepAll(p, s[1..]);
    }
  }

  lemma {:induction false} KeepNone<A>(p: A -> bool, s: seq<A>)
    requires forall i :: 0 <= i < |s| ==> !p(s[i])
    ensures Keep(p, s) == []
  {
    if s != [] {
      KeepNone(p, s[1..]);
    }
  }

  lemma KeepOne<A>(p: A -> bool, x: A)
    ensures Keep(p, [x]) == if p(x) then [x] else []
  {
    assert [x][1..] == [];
  }

  lemma KeepSnoc<A>(p: A -> bool, s: seq<A>, x: A)
    ensures Keep(p, s + [x]) == Keep(p, s) + if p(x) then [x] else []
  {
    KeepConcat(p, s, [x]);
    KeepOne(p, x);
  }

  lemma KeepTake<A>(p: A -> bool, s: seq<A>, i: nat)
    requires i < |s|
    ensures Keep(p, s[..i + 1]) == Keep(p, s[..i]) + if p(s[i]) then [s[i]] else []
  {
    assert s[..i + 1] == s[..i] + [s[i]];
    KeepSnoc(p, s[..i], s[i]);
  }

  lemma KeepSplit<A>(p: A -> bool, s: seq<A>, i: nat)
    requires i < |s|
    ensures Keep(p, s) == Keep(p, s[..i + 1]) + Keep(p, s[i + 1..])
    ensures Keep(p, s[..i] + s[i + 1..]) == Keep(p, s[..i]) + Keep(p, s[i + 1..])
  {
    assert s == s[..i + 1] + s[i + 1..];
    KeepConcat(p, s[..i + 1], s[i + 1..]);
    KeepConcat(p, s[..i], s[i + 1..]);
  }

  /** Dropping a member the test refuses changes nothing. */
  lemma KeepDropRefused<A>(p: A -> bool, s: seq<A>, i: nat)
    requires i < |s| && !p(s[i])
    ensures Keep(p, s) == Keep(p, s[..i] + s[i + 1..])
  {
    hide Keep;
    KeepTake(p, s, i);
    KeepSplit(p, s, i);
    assert Keep(p, s[..i + 1]) == Keep(p, s[..i]);
  }

  /** Dropping the first member it accepts drops the first kept. */
  lemma KeepDropFirst<A>(p: A -> bool, s: seq<A>, i: nat)
    requires i < |s| && p(s[i]) && forall j :: 0 <= j < i ==> !p(s[j])
    ensures Keep(p, s) == [s[i]] + Keep(p, s[..i] + s[i + 1..])
  {
    hide Keep;
    KeepTake(p, s, i);
    KeepSplit(p, s, i);
    KeepNone(p, s[..i]);
    assert Keep(p, s[..i + 1]) == [s[i]];
    assert Keep(p, s[..i] + s[i + 1..]) == Keep(p, s[i + 1..]);
  }

  function Sum<A>(f: A -> nat, s: seq<A>): nat {
    if s == [] then 0 else f(s[0]) + Sum(f, s[1..])
  }

  lemma {:induction false} SumConcat<A>(f: A -> nat, s: seq<A>, t: seq<A>)
    ensures Sum(f, s + t) == Sum(f, s) + Sum(f, t)
  {
    if s == [] {
      assert s + t == t;
    } else {
      assert (s + t)[1..] == s[1..] + t;
      SumConcat(f, s[1..], t);
    }
  }

  lemma SumOne<A>(f: A -> nat, x: A)
    ensures Sum(f, [x]) == f(x)
  {
    assert [x][1..] == [];
  }

  /** Taking one member out takes its weight out. */
  lemma SumWithout<A>(f: A -> nat, s: seq<A>, i: nat)
    requires i < |s|
    ensures Sum(f, s[..i] + s[i + 1..]) == Sum(f, s) - f(s[i])
  {
    hide Sum;
    var a, b := s[..i], s[i + 1..];
    SumMiddle(f, a, s[i], b);
    assert s == a + [s[i]] + b;
  }

  lemma SumMiddle<A>(f: A -> nat, a: seq<A>, x: A, b: seq<A>)
    ensures Sum(f, a + [x] + b) == Sum(f, a + b) + f(x)
  {
    hide Sum;
    SumConcat(f, a + [x], b);
    SumConcat(f, a, [x]);
    SumConcat(f, a, b);
    SumOne(f, x);
  }

  lemma SumUpdate<A>(f: A -> nat, s: seq<A>, i: nat, x: A)
    requires i < |s|
    ensures Sum(f, s[i := x]) + f(s[i]) == Sum(f, s) + f(x)
  {
    SumWithout(f, s, i);
    SumWithout(f, s[i := x], i);
    assert s[i := x][..i] + s[i := x][i + 1..] == s[..i] + s[i + 1..];
  }
}
