// Sums of natural numbers over finite maps.

module Sums {

  ghost function Sum<K>(m: map<K, nat>): nat
  {
    if m == map[] then 0 else
      var k :| k in m;
      m[k] + Sum(m - {k})
  }

  /** The sum does not depend on the order in which keys are taken out. */
  lemma {:induction false} SumRemove<K>(m: map<K, nat>, k: K)
    requires k in m
    ensures Sum(m) == m[k] + Sum(m - {k})
    decreases |m|
  {
    var c :| c in m && Sum(m) == m[c] + Sum(m - {c});
    if c != k {
      SumRemove(m - {c}, k);
      SumRemove(m - {k}, c);
      assert m - {c} - {k} == m - {k} - {c};
    }
  }

  lemma SumUpdate<K>(m: map<K, nat>, k: K, v: nat)
    ensures Sum(m[k := v]) == Sum(m) + v - (if k in m then m[k] else 0)
  {
    SumRemove(m[k := v], k);
    if k in m {
      SumRemove(m, k);
      assert m[k := v] - {k} == m - {k};
    } else {
      assert m[k := v] - {k} == m;
    }
  }

  /** The units `d` granted to the keys of `raised` that occur in `m`. */
  ghost function Grant<K>(m: map<K, nat>, raised: set<K>, d: nat): nat {
    |m.Keys * raised| * d
  }

  lemma TimesSuccessor(x: nat, d: nat)
    ensures (x + 1) * d == x * d + d
  {
  }

  lemma GrantRemove<K>(m: map<K, nat>, raised: set<K>, d: nat, k: K)
    requires k in m
    ensures Grant(m, raised, d) == Grant(m - {k}, raised, d) + (if k in raised then d else 0)
  {
    var a, b := m.Keys * raised, (m - {k}).Keys * raised;
    if k in raised {
      assert a == b + {k} && k !in b;
      assert |a| == |b| + 1;
      TimesSuccessor(|b|, d);
    } else {
      assert a == b;
    }
  }

  /** Raising only the keys in `raised`, each by at most `d`, raises the sum by at most that much a key. */
  lemma {:induction false} SumRaise<K>(m: map<K, nat>, m': map<K, nat>, raised: set<K>, d: nat)
    requires m.Keys == m'.Keys
    requires forall k :: k in m ==> m'[k] <= m[k] + (if k in raised then d else 0)
    ensures Sum(m') <= Sum(m) + Grant(m, raised, d)
    decreases |m|
  {
    if m == map[] {
    } else {
      var k :| k in m;
      SumRemove(m, k);
      SumRemove(m', k);
      GrantRemove(m, raised, d, k);
      SumRaise(m - {k}, m' - {k}, raised, d);
    }
  }

  /** Lowering every key, one of them strictly, lowers the sum strictly. */
  lemma SumLower<K>(m: map<K, nat>, m': map<K, nat>, k: K)
    requires m.Keys == m'.Keys && k in m
    requires forall x :: x in m ==> m'[x] <= m[x]
    requires m'[k] < m[k]
    ensures Sum(m') < Sum(m)
  {
    SumRemove(m, k);
    SumRemove(m', k);
    SumRaise(m - {k}, m' - {k}, {}, 0);
  }
}
