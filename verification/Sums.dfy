/** Sums over the values of a finite map, for the measures of the cluster. */
module Sums {

  ghost function MapSum<K>(m: map<K, nat>): (n: nat)
  {
    if m == map[] then 0
    else
      var k :| k in m;
      m[k] + MapSum(m - {k})
  }

  /** The sum does not depend on which key is taken out first. */
  lemma {:induction false} MapSumRemove<K>(m: map<K, nat>, k: K)
    requires k in m
    ensures MapSum(m) == m[k] + MapSum(m - {k})
    decreases |m|
  {
    var c :| c in m && MapSum(m) == m[c] + MapSum(m - {c});
    if c != k {
      MapSumRemove(m - {c}, k);
      MapSumRemove(m - {k}, c);
      assert m - {c} - {k} == m - {k} - {c};
    }
  }

  /** Changing one value changes the sum by as much. */
  lemma MapSumChange<K>(m: map<K, nat>, n: map<K, nat>, k: K)
    requires k in m && m.Keys == n.Keys
    requires forall c :: c in m && c != k ==> m[c] == n[c]
    ensures MapSum(m) + n[k] == MapSum(n) + m[k]
  {
    MapSumRemove(m, k);
    MapSumRemove(n, k);
    assert m - {k} == n - {k};
  }

  lemma MapSumChangeTwo<K>(m: map<K, nat>, n: map<K, nat>, k: K, l: K)
    requires k in m && l in m && k != l && m.Keys == n.Keys
    requires forall c :: c in m && c != k && c != l ==> m[c] == n[c]
    ensures MapSum(m) + n[k] + n[l] == MapSum(n) + m[k] + m[l]
  {
    var mid := m[k := n[k]];
    MapSumChange(m, mid, k);
    MapSumChange(mid, n, l);
  }
}
