/** Sums of integer values over finite maps. */
module Sums {

  ghost function Pick<K, V>(m: map<K, V>): K
    requires m != map[]
  {
    var k :| k in m; k
  }

  ghost function Sum<K>(m: map<K, int>): int {
    if m == map[] then 0 else var k := Pick(m); m[k] + Sum(m - {k})
  }

  lemma {:induction false} SumSplit<K>(m: map<K, int>, k: K)
    requires k in m
    ensures Sum(m) == m[k] + Sum(m - {k})
    decreases |m|
  {
    var p := Pick(m);
    if p != k {
      SumSplit(m - {p}, k);
      SumSplit(m - {k}, p);
      assert m - {p} - {k} == m - {k} - {p};
    }
  }

  lemma SumUpdate<K>(m: map<K, int>, k: K, v: int)
    ensures Sum(m[k := v]) == Sum(m) + v - (if k in m then m[k] else 0)
  {
    SumSplit(m[k := v], k);
    if k in m {
      SumSplit(m, k);
      assert m[k := v] - {k} == m - {k};
    } else {
      assert m[k := v] - {k} == m;
    }
  }

  lemma {:induction false} SumAdd<K>(h: map<K, int>, f: map<K, int>, g: map<K, int>)
    requires f.Keys == h.Keys && g.Keys == h.Keys && forall k :: k in h ==> h[k] == f[k] + g[k]
    ensures Sum(h) == Sum(f) + Sum(g)
    decreases |h|
  {
    if h != map[] {
      var p := Pick(h);
      SumSplit(f, p);
      SumSplit(g, p);
      SumAdd(h - {p}, f - {p}, g - {p});
    } else {
      assert f == map[] && g == map[];
    }
  }

  lemma {:induction false} SumBounds<K>(m: map<K, int>)
    requires forall k :: k in m ==> m[k] >= 0
    ensures Sum(m) >= 0 && forall k :: k in m ==> m[k] <= Sum(m)
    decreases |m|
  {
    if m != map[] {
      var p := Pick(m);
      SumBounds(m - {p});
      forall k | k in m ensures m[k] <= Sum(m) { SumSplit(m, k); SumBounds(m - {k}); }
    }
  }
}
