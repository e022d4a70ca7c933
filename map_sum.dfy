/**
 * The sum of the values of a finite map, and how it changes when one key is
 * overwritten. Every conservation argument about the ledger goes through SumUpdate.
 */
module MapSum {

  /** The value stored at `k`, or 0 when `k` has no entry. */
  function Get<K>(m: map<K, nat>, k: K): nat
  {
    if k in m then m[k] else 0
  }

  /** The sum of all values of `m`. */
  ghost function Sum<K>(m: map<K, nat>): nat
    decreases |m|
  {
    if m == map[] then 0
    else
      var k := PickKey(m);
      m[k] + Sum(m - {k})
  }

  ghost function PickKey<K>(m: map<K, nat>): (k: K)
    requires m != map[]
    ensures k in m
  {
    var k :| k in m.Keys; k
  }

  /** Taking any one key out of the sum leaves the sum of the rest. */
  lemma {:induction false} SumRemove<K>(m: map<K, nat>, k: K)
    requires k in m
    ensures Sum(m) == m[k] + Sum(m - {k})
    decreases |m|
  {
    var j := PickKey(m);
    if j != k {
      assert |m - {j}| < |m| by { assert (m - {j}).Keys == m.Keys - {j}; }
      assert |m - {k}| < |m| by { assert (m - {k}).Keys == m.Keys - {k}; }
      SumRemove(m - {j}, k);
      SumRemove(m - {k}, j);
      assert m - {j} - {k} == m - {k} - {j};
    }
  }

  /** Overwriting one key changes the sum by exactly the difference of the two values. */
  lemma SumUpdate<K>(m: map<K, nat>, k: K, v: nat)
    ensures Sum(m[k := v]) == Sum(m) - Get(m, k) + v
  {
    SumRemove(m[k := v], k);
    assert m[k := v] - {k} == m - {k};
    if k in m {
      SumRemove(m, k);
    } else {
      assert m - {k} == m;
    }
  }

  /** The values at two distinct keys together never exceed the sum. */
  lemma PairAtMostSum<K>(m: map<K, nat>, a: K, b: K)
    requires a != b
    ensures Get(m, a) + Get(m, b) <= Sum(m)
  {
    if a in m {
      SumRemove(m, a);
      if b in m {
        SumRemove(m - {a}, b);
      }
    } else if b in m {
      SumRemove(m, b);
    }
  }

  /** No single value exceeds the sum. */
  lemma EntryAtMostSum<K>(m: map<K, nat>, a: K)
    ensures Get(m, a) <= Sum(m)
  {
    if a in m {
      SumRemove(m, a);
    }
  }
}
