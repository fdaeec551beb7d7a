/** Sums over finite maps: the ledger and the escrow counters are all stated with them. */
module Sums {

  ghost function MapSum<K>(m: map<K, int>): int
    decreases |m|
  {
    if m == map[] then 0
    else
      var k :| k in m;
      m[k] + MapSum(m - {k})
  }

  /** A running total, zero until the key is first seen. */
  function Tally<K>(sums: map<K, int>, k: K): int {
    if k in sums then sums[k] else 0
  }

  /** The order in which the keys are taken does not matter. */
  lemma {:induction false} MapSumPeel<K>(m: map<K, int>, k: K)
    requires k in m
    ensures MapSum(m) == m[k] + MapSum(m - {k})
    decreases |m|
  {
    var j :| j in m && MapSum(m) == m[j] + MapSum(m - {j});
    if j != k {
      MapSumPeel(m - {j}, k);
      MapSumPeel(m - {k}, j);
      assert m - {j} - {k} == m - {k} - {j};
    }
  }

  lemma {:induction false} MapSumUpdate<K>(m: map<K, int>, k: K, v: int)
    ensures MapSum(m[k := v]) == MapSum(m) - (if k in m then m[k] else 0) + v
  {
    MapSumPeel(m[k := v], k);
    assert m[k := v] - {k} == m - {k};
    if k in m {
      MapSumPeel(m, k);
    } else {
      assert m - {k} == m;
    }
  }

  lemma {:induction false} MapSumBounds<K>(m: map<K, int>)
    requires forall k :: k in m ==> m[k] >= 0
    ensures MapSum(m) >= 0
    ensures forall k :: k in m ==> m[k] <= MapSum(m)
    decreases |m|
  {
    if m != map[] {
      forall k | k in m
        ensures 0 <= m[k] <= MapSum(m)
      {
        MapSumPeel(m, k);
        MapSumBounds(m - {k});
      }
      var k :| k in m;
      assert MapSum(m) >= m[k];
    }
  }

  lemma {:induction false} MapSumZero<K>(m: map<K, int>)
    requires forall k :: k in m ==> m[k] == 0
    ensures MapSum(m) == 0
    decreases |m|
  {
    if m != map[] {
      var k :| k in m;
      MapSumPeel(m, k);
      MapSumZero(m - {k});
    }
  }

  /** Keys whose value is zero may be left out. */
  lemma {:induction false} MapSumSupport<K>(m: map<K, int>, n: map<K, int>)
    requires n.Keys <= m.Keys && forall k :: k in m ==> m[k] == if k in n then n[k] else 0
    ensures MapSum(m) == MapSum(n)
    decreases |m|
  {
    if m == map[] {
      assert n == map[];
    } else {
      var k :| k in m;
      MapSumPeel(m, k);
      if k in n {
        MapSumPeel(n, k);
      } else {
        assert n - {k} == n;
      }
      MapSumSupport(m - {k}, n - {k});
    }
  }
}
