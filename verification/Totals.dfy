/** The sum of the values of a finite map. */
module Totals {

  ghost function Total<K>(m: map<K, nat>): nat
    decreases |m|
  {
    if m == map[] then 0
    else
      var k :| k in m;
      var rest := m - {k};
      m[k] + Total(rest)
  }

  /** Any key may be counted first. */
  lemma {:induction false} TotalWithout<K>(m: map<K, nat>, k: K)
    requires k in m
    ensures Total(m) == m[k] + Total(m - {k})
    decreases |m|
  {
    var first :| first in m && Total(m) == m[first] + Total(m - {first});
    if first != k {
      TotalWithout(m - {first}, k);
      TotalWithout(m - {k}, first);
      assert m - {first} - {k} == m - {k} - {first};
    }
  }

  lemma TotalWith<K>(m: map<K, nat>, k: K, v: nat)
    requires k !in m
    ensures Total(m[k := v]) == v + Total(m)
  {
    TotalWithout(m[k := v], k);
    assert m[k := v] - {k} == m;
  }
}
