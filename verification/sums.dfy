/**
 * Finite sums over the entries of a map. The ledger invariant ("every balance
 * is the sum of the effects of the stored records") and the per-currency
 * totals are both stated with them.
 */
module Sums {

  /** The sum of `f(k, m[k])` over every entry of `m`, in no particular order. */
  ghost function SumBy<K, V>(m: map<K, V>, f: (K, V) -> int): int
    decreases m.Keys
  {
    if m == map[] then 0
    else
      var k :| k in m;
      f(k, m[k]) + SumBy(m - {k}, f)
  }

  /** Any entry can be taken out of the sum first: the order of summation does not matter. */
  lemma {:induction false} SumByRemove<K, V>(m: map<K, V>, f: (K, V) -> int, x: K)
    requires x in m
    ensures SumBy(m, f) == f(x, m[x]) + SumBy(m - {x}, f)
    decreases m.Keys
  {
    var y :| y in m && SumBy(m, f) == f(y, m[y]) + SumBy(m - {y}, f);
    if y != x {
      SumByRemove(m - {y}, f, x);
      SumByRemove(m - {x}, f, y);
      assert m - {y} - {x} == m - {x} - {y};
    }
  }

  /** Overwriting (or adding) one entry changes the sum by the difference of that entry alone. */
  lemma SumByUpdate<K, V>(m: map<K, V>, f: (K, V) -> int, x: K, v: V)
    ensures SumBy(m[x := v], f) == SumBy(m, f) - (if x in m then f(x, m[x]) else 0) + f(x, v)
  {
    SumByRemove(m[x := v], f, x);
    assert m[x := v] - {x} == m - {x};
    if x in m {
      SumByRemove(m, f, x);
    } else {
      assert m - {x} == m;
    }
  }
}
