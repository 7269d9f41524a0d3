/** Tallies kept in maps: the insert-or-increment idiom used by every probe
    (insert 1 when the key is absent, otherwise add 1) and the
    first-value-wins insert used for recorded block lengths. */
module Counts {

  /** An instruction or memory address (an unsigned 64-bit value in the
      simulator; wrap-around is not modelled). */
  type Addr = nat

  /** The count a tally holds for `k`; an absent key counts zero. */
  function Count<K>(m: map<K, nat>, k: K): nat {
    if k in m then m[k] else 0
  }

  /** Insert-or-increment: `m[k]` rises by one, inserted as 1 if absent. */
  function Inc<K(!new)>(m: map<K, nat>, k: K): (r: map<K, nat>)
    ensures r.Keys == m.Keys + {k}
    ensures Count(r, k) == Count(m, k) + 1
    ensures forall j :: j != k ==> Count(r, j) == Count(m, j)
    ensures forall j :: j in m && j != k ==> r[j] == m[j]
  {
    if k in m then m[k := m[k] + 1] else m[k := 1]
  }

  /** Insert that never overwrites: the first value recorded for `k` wins. */
  function FirstWins<K(!new)>(m: map<K, nat>, k: K, v: nat): (r: map<K, nat>)
    ensures r.Keys == m.Keys + {k}
    ensures k in m ==> r == m
    ensures k !in m ==> r[k] == v
    ensures forall j :: j in m ==> r[j] == m[j]
  {
    if k in m then m else m[k := v]
  }

  /** Every stored count is at least one. */
  ghost predicate Positive<K(!new)>(m: map<K, nat>) {
    forall k :: k in m ==> m[k] >= 1
  }

  /** The sum of all counts in a tally. */
  ghost function Total<K>(m: map<K, nat>): nat
    decreases |m|
  {
    if m == map[] then 0
    else
      var k :| k in m;
      m[k] + Total(m - {k})
  }

  /** Total may be computed by removing any key first. */
  lemma {:induction false} TotalRemove<K>(m: map<K, nat>, k: K)
    requires k in m
    ensures Total(m) == m[k] + Total(m - {k})
    decreases |m|
  {
    var k' :| k' in m && Total(m) == m[k'] + Total(m - {k'});
    if k' != k {
      var mk := m - {k};
      var mk' := m - {k'};
      assert |mk'| < |m| by { assert mk'.Keys == m.Keys - {k'}; }
      assert |mk| < |m| by { assert mk.Keys == m.Keys - {k}; }
      TotalRemove(mk', k);
      TotalRemove(mk, k');
      assert mk' - {k} == mk - {k'};
    }
  }

  /** Insert-or-increment adds exactly one to the total. */
  lemma IncTotal<K(!new)>(m: map<K, nat>, k: K)
    ensures Total(Inc(m, k)) == Total(m) + 1
  {
    var r := Inc(m, k);
    TotalRemove(r, k);
    assert r - {k} == m - {k};
    if k in m {
      TotalRemove(m, k);
    } else {
      assert m - {k} == m;
    }
  }

  /** Insert-or-increment keeps every stored count positive. */
  lemma IncPositive<K(!new)>(m: map<K, nat>, k: K)
    requires Positive(m)
    ensures Positive(Inc(m, k))
  {
  }
}
