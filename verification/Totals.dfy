/** Sums over the values of a dictionary. */
module Totals {
  ghost function Total<K>(m: map<K, nat>): nat {
    if m == map[] then 0 else
      var k :| k in m;
      m[k] + Total(m - {k})
  }

  lemma {:induction false} TotalRemove<K>(m: map<K, nat>, k: K)
    requires k in m
    ensures Total(m) == m[k] + Total(m - {k})
    decreases |m|
  {
    var j :| j in m && Total(m) == m[j] + Total(m - {j});
    if j != k {
      TotalRemove(m - {j}, k);
      TotalRemove(m - {k}, j);
      assert m - {j} - {k} == m - {k} - {j};
    }
  }

  lemma TotalUpdate<K>(m: map<K, nat>, k: K, v: nat)
    ensures Total(m[k := v]) == Total(m - {k}) + v
    ensures Total(m) == Total(m - {k}) + if k in m then m[k] else 0
  {
    TotalRemove(m[k := v], k);
    assert m[k := v] - {k} == m - {k};
    if k in m {
      TotalRemove(m, k);
    } else {
      assert m - {k} == m;
    }
  }

  lemma {:induction false} TotalMonotone<K>(small: map<K, nat>, big: map<K, nat>)
    requires forall k :: k in small ==> k in big && small[k] <= big[k]
    ensures Total(small) <= Total(big)
    decreases |small|
  {
    if small != map[] {
      var k :| k in small;
      TotalRemove(small, k);
      TotalRemove(big, k);
      TotalMonotone(small - {k}, big - {k});
    }
  }

  ghost function Restricted<K>(m: map<K, nat>, keys: set<K>): map<K, nat> {
    map k | k in m && k in keys :: m[k]
  }

  /** The sum over the given keys only. */
  ghost function TotalOver<K>(m: map<K, nat>, keys: set<K>): nat {
    Total(Restricted(m, keys))
  }

  lemma TotalOverAll<K>(m: map<K, nat>)
    ensures TotalOver(m, m.Keys) == Total(m) && TotalOver(m, {}) == 0
  {
    assert Restricted(m, m.Keys) == m;
    assert Restricted(m, {}) == map[];
  }

  lemma TotalOverStep<K>(m: map<K, nat>, keys: set<K>, k: K)
    requires k in m && k in keys
    ensures TotalOver(m, keys) == m[k] + TotalOver(m, keys - {k})
  {
    TotalRemove(Restricted(m, keys), k);
    assert Restricted(m, keys) - {k} == Restricted(m, keys - {k});
  }
}
