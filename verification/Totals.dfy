/** Sums over the values of a map, as the store derives them. */
module Totals {

  ghost function Total<K>(m: map<K, int>): int
    decreases |m|
  {
    if m == map[] then 0
    else
      var k :| k in m;
      m[k] + Total(m - {k})
  }

  /** Any key may be taken out first. */
  lemma {:induction false} TakeOut<K>(m: map<K, int>, k: K)
    requires k in m
    ensures Total(m) == m[k] + Total(m - {k})
    decreases |m|
  {
    var first :| first in m && Total(m) == m[first] + Total(m - {first});
    if first != k {
      TakeOut(m - {first}, k);
      TakeOut(m - {k}, first);
      assert m - {first} - {k} == m - {k} - {first};
    }
  }

  lemma Put<K>(m: map<K, int>, k: K, v: int)
    ensures Total(m[k := v]) == (if k in m then Total(m) - m[k] else Total(m)) + v
  {
    TakeOut(m[k := v], k);
    assert m[k := v] - {k} == m - {k};
    if k in m {
      TakeOut(m, k);
    } else {
      assert m - {k} == m;
    }
  }

  lemma Single<K>(k: K, v: int)
    ensures Total(map[k := v]) == v
  {
    TakeOut(map[k := v], k);
    assert map[k := v] - {k} == map[];
  }

  lemma {:induction false} NonNegative<K>(m: map<K, int>)
    requires forall k :: k in m ==> m[k] >= 0
    ensures Total(m) >= 0
    decreases |m|
  {
    if k :| k in m {
      TakeOut(m, k);
      NonNegative(m - {k});
    }
  }

  /** A sum is no larger than another that is larger at every key. */
  lemma {:induction false} AtMost<K>(a: map<K, int>, b: map<K, int>)
    requires a.Keys == b.Keys && forall k :: k in a ==> a[k] <= b[k]
    ensures Total(a) <= Total(b)
    decreases |a|
  {
    if k :| k in a {
      TakeOut(a, k);
      TakeOut(b, k);
      AtMost(a - {k}, b - {k});
    }
  }
}
