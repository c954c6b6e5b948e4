/** Sums over the values of a finite map. */
module Sums {

  ghost function Pick(m: map<string, int>): string
    requires m != map[]
    ensures Pick(m) in m
  {
    assert m.Keys != {};
    var k :| k in m; k
  }

  ghost function Sum(m: map<string, int>): int
    decreases |m|
  {
    if m == map[] then 0 else
    var k := Pick(m);
    assert (m - {k}).Keys == m.Keys - {k};
    m[k] + Sum(m - {k})
  }

  /** Any key may be taken out first. */
  lemma {:induction false} SumWithout(m: map<string, int>, k: string)
    requires k in m
    ensures Sum(m) == m[k] + Sum(m - {k})
    decreases |m|
  {
    var p := Pick(m);
    if p != k {
      var a, b := m - {p}, m - {k};
      assert a.Keys == m.Keys - {p} && b.Keys == m.Keys - {k};
      SumWithout(a, k);
      SumWithout(b, p);
      assert a - {k} == b - {p};
    }
  }

  lemma SumPut(m: map<string, int>, k: string, v: int)
    ensures Sum(m[k := v]) == Sum(m) - (if k in m then m[k] else 0) + v
  {
    SumWithout(m[k := v], k);
    assert m[k := v] - {k} == m - {k};
    if k in m { SumWithout(m, k); } else { assert m - {k} == m; }
  }

  lemma {:induction false} SumAtMost(m: map<string, int>, n: map<string, int>)
    requires m.Keys == n.Keys
    requires forall k :: k in m ==> m[k] <= n[k]
    ensures Sum(m) <= Sum(n)
    decreases |m|
  {
    if m != map[] {
      var k := Pick(m);
      SumWithout(n, k);
      assert (m - {k}).Keys == m.Keys - {k} && (n - {k}).Keys == n.Keys - {k};
      SumAtMost(m - {k}, n - {k});
    } else {
      assert n.Keys == {};
      assert n == map[];
    }
  }

  lemma {:induction false} SumAdds(m: map<string, int>, n: map<string, int>, t: map<string, int>)
    requires m.Keys == n.Keys == t.Keys
    requires forall k :: k in t ==> t[k] == m[k] + n[k]
    ensures Sum(t) == Sum(m) + Sum(n)
    decreases |t|
  {
    if t == map[] {
      assert m.Keys == {} && n.Keys == {};
      assert m == map[] && n == map[];
    } else {
      var k := Pick(t);
      SumWithout(m, k);
      SumWithout(n, k);
      assert (t - {k}).Keys == t.Keys - {k} && (m - {k}).Keys == t.Keys - {k} && (n - {k}).Keys == t.Keys - {k};
      SumAdds(m - {k}, n - {k}, t - {k});
    }
  }
}
