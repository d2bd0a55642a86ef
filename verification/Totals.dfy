/** Weighted sums over finite maps, used by the termination measure of the strand protocol and by
    the bookkeeping of the timer collectors. */
module Totals {

  datatype Option<+T> = None | Some(value: T)

  /** The sum of `weight` over the values of `m`. */
  ghost function Total<K, V>(m: map<K, V>, weight: V -> nat): nat
    decreases |m|
  {
    if m == map[] then 0
    else
      var k :| k in m;
      Shrinks(m, k);
      weight(m[k]) + Total(m - {k}, weight)
  }

  lemma {:induction false} Shrinks<K, V>(m: map<K, V>, k: K)
    requires k in m
    ensures |m - {k}| < |m|
  {
    assert (m - {k}).Keys == m.Keys - {k};
  }

  /** Any entry can be split off the sum, not only the one `Total` happens to choose. */
  lemma {:induction false} TotalSplit<K, V>(m: map<K, V>, k: K, weight: V -> nat)
    requires k in m
    ensures Total(m, weight) == weight(m[k]) + Total(m - {k}, weight)
    decreases |m|
  {
    var c :| c in m && Total(m, weight) == weight(m[c]) + Total(m - {c}, weight);
    if c != k {
      Shrinks(m, c);
      Shrinks(m, k);
      TotalSplit(m - {c}, k, weight);
      TotalSplit(m - {k}, c, weight);
      assert m - {c} - {k} == m - {k} - {c};
    }
  }

  lemma {:induction false} TotalInsert<K, V>(m: map<K, V>, k: K, v: V, weight: V -> nat)
    requires k !in m
    ensures Total(m[k := v], weight) == Total(m, weight) + weight(v)
  {
    TotalSplit(m[k := v], k, weight);
    assert m[k := v] - {k} == m;
  }

  lemma {:induction false} TotalUpdate<K, V>(m: map<K, V>, k: K, v: V, weight: V -> nat)
    requires k in m
    ensures Total(m[k := v], weight) + weight(m[k]) == Total(m, weight) + weight(v)
  {
    TotalSplit(m, k, weight);
    TotalSplit(m[k := v], k, weight);
    assert m[k := v] - {k} == m - {k};
  }
}
