/**
  Frequency tables: maps from a key to how often it was seen, updated the
  way `HashMap.put(k, m.getOrDefault(k, 0) + 1)` updates them, and the sum of
  all their counts.
*/
module Counters {

  /** `m.getOrDefault(k, 0)`. */
  function CountOf<K>(m: map<K, int>, k: K): int {
    if k in m then m[k] else 0
  }

  /** `m.put(k, m.getOrDefault(k, 0) + 1)`: one more for `k`, every other key as it was. */
  function Increment<K>(m: map<K, int>, k: K): (r: map<K, int>)
    ensures r.Keys == m.Keys + {k}
    ensures CountOf(r, k) == CountOf(m, k) + 1
    ensures forall j :: j in m && j != k ==> r[j] == m[j]
  {
    m[k := CountOf(m, k) + 1]
  }

  /** The sum of all counts in a table. */
  ghost function SumValues<K>(m: map<K, int>): int
    decreases |m|
  {
    if m == map[] then 0
    else
      var k :| k in m;
      m[k] + SumValues(m - {k})
  }

  /** The sum may be taken apart at any key, not only at the one `SumValues` picks. */
  lemma {:induction false} SumValuesRemove<K>(m: map<K, int>, x: K)
    requires x in m
    ensures SumValues(m) == m[x] + SumValues(m - {x})
    decreases |m|
  {
    var k :| k in m && SumValues(m) == m[k] + SumValues(m - {k});
    if k != x {
      var mk := m - {k};
      var mx := m - {x};
      assert x in mk && k in mx;
      SumValuesRemove(mk, x);
      SumValuesRemove(mx, k);
      assert mk - {x} == mx - {k};
    }
  }

  /** One increment adds exactly one to the sum of the table. */
  lemma SumValuesIncrement<K>(m: map<K, int>, k: K)
    ensures SumValues(Increment(m, k)) == SumValues(m) + 1
  {
    var r := Increment(m, k);
    SumValuesRemove(r, k);
    if k in m {
      SumValuesRemove(m, k);
      assert r - {k} == m - {k};
    } else {
      assert r - {k} == m;
    }
  }
}
