/**
 * Tally maps: the `counts[k] = (counts[k] || 0) + 1` idiom, and the sum of
 * a tally's values.
 */
module Tally {
  /** `m[k] || 0`. */
  function CountOf<K(!new)>(m: map<K, nat>, k: K): nat
  {
    if k in m then m[k] else 0
  }

  /** `m[k] = (m[k] || 0) + 1`. */
  function Bump<K(!new)>(m: map<K, nat>, k: K): (r: map<K, nat>)
    ensures r.Keys == m.Keys + {k}
    ensures CountOf(r, k) == CountOf(m, k) + 1
    ensures forall j :: j != k ==> CountOf(r, j) == CountOf(m, j)
  {
    m[k := CountOf(m, k) + 1]
  }

  /** The sum of all values of a tally. */
  ghost function Sum<K(!new)>(m: map<K, nat>): nat
    decreases |m.Keys|
  {
    if m.Keys == {} then 0
    else
      var k :| k in m.Keys;
      m[k] + Sum(m - {k})
  }

  /** The sum does not depend on which key the definition picks first. */
  lemma {:induction false} SumRemove<K(!new)>(m: map<K, nat>, k: K)
    requires k in m.Keys
    ensures Sum(m) == m[k] + Sum(m - {k})
    decreases |m.Keys|
  {
    var k' :| k' in m.Keys && Sum(m) == m[k'] + Sum(m - {k'});
    if k' != k {
      assert k in (m - {k'}).Keys;
      assert k' in (m - {k}).Keys;
      assert (m - {k'}).Keys < m.Keys;
      assert (m - {k}).Keys < m.Keys;
      SumRemove(m - {k'}, k);
      SumRemove(m - {k}, k');
      assert m - {k'} - {k} == m - {k} - {k'};
    }
  }

  /** Bumping one key raises the sum by exactly one. */
  lemma BumpSum<K(!new)>(m: map<K, nat>, k: K)
    ensures Sum(Bump(m, k)) == Sum(m) + 1
  {
    var r := Bump(m, k);
    SumRemove(r, k);
    if k in m.Keys {
      SumRemove(m, k);
      assert r - {k} == m - {k};
    } else {
      assert r - {k} == m;
    }
  }
}
