/** Sums over the values of a map, used to bound how many steps are left. */
module Totals {
  ghost function Total<K(!new), V>(m: map<K, V>, weight: V -> nat): nat {
    if m == map[] then 0
    else var k :| k in m; weight(m[k]) + Total(m - {k}, weight)
  }

  lemma {:induction false} TotalWithout<K(!new), V>(m: map<K, V>, weight: V -> nat, k: K)
    requires k in m
    ensures Total(m, weight) == weight(m[k]) + Total(m - {k}, weight)
    decreases m
  {
    var d :| d in m && Total(m, weight) == weight(m[d]) + Total(m - {d}, weight);
    if d != k {
      TotalWithout(m - {d}, weight, k);
      TotalWithout(m - {k}, weight, d);
      assert m - {d} - {k} == m - {k} - {d};
    }
  }

  /** Changing one value changes the sum by the difference. */
  lemma TotalUpdated<K(!new), V>(m: map<K, V>, weight: V -> nat, k: K, v: V)
    requires k in m
    ensures Total(m[k := v], weight) == Total(m, weight) - weight(m[k]) + weight(v)
  {
    TotalWithout(m, weight, k);
    TotalWithout(m[k := v], weight, k);
    assert m[k := v] - {k} == m - {k};
  }
}
