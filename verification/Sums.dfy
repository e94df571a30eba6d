/** Sums over finite maps, independent of any order of the keys. */
module Sums {

  ghost function Sum<K>(m: map<K, int>): int
    decreases |m|
  {
    if m == map[] then 0
    else
      var k :| k in m;
      m[k] + Sum(m - {k})
  }

  lemma {:induction false} SumTake<K>(m: map<K, int>, k: K)
    requires k in m
    ensures Sum(m) == m[k] + Sum(m - {k})
    decreases |m|
  {
    var c :| c in m && Sum(m) == m[c] + Sum(m - {c});
    if c != k {
      SumTake(m - {c}, k);
      SumTake(m - {k}, c);
      assert m - {c} - {k} == m - {k} - {c};
    }
  }

  lemma SumPut<K>(m: map<K, int>, k: K, v: int)
    ensures Sum(m[k := v]) == Sum(m) + v - if k in m then m[k] else 0
  {
    SumTake(m[k := v], k);
    assert m[k := v] - {k} == m - {k};
    if k in m {
      SumTake(m, k);
    } else {
      assert m - {k} == m;
    }
  }

  lemma {:induction false} SumMonotone<K>(a: map<K, int>, b: map<K, int>)
    requires a.Keys == b.Keys && forall k | k in a :: a[k] <= b[k]
    ensures Sum(a) <= Sum(b)
    decreases |a|
  {
    if a == map[] {
      assert b == map[];
    } else {
      var k :| k in a;
      SumTake(a, k);
      SumTake(b, k);
      SumMonotone(a - {k}, b - {k});
    }
  }

  /** Keys that contribute nothing may come and go. */
  lemma {:induction false} SumIgnoresZeros<K>(a: map<K, int>, b: map<K, int>)
    requires forall k | k in a :: k in b && a[k] == b[k]
    requires forall k | k in b && k !in a :: b[k] == 0
    ensures Sum(a) == Sum(b)
    decreases |b|
  {
    if b == map[] {
      assert a == map[];
    } else {
      var k :| k in b;
      SumTake(b, k);
      if k in a {
        SumTake(a, k);
        SumIgnoresZeros(a - {k}, b - {k});
      } else {
        SumIgnoresZeros(a, b - {k});
      }
    }
  }

  lemma {:induction false} SumAdds<K>(a: map<K, int>, b: map<K, int>, c: map<K, int>)
    requires a.Keys == b.Keys == c.Keys && forall k | k in c :: c[k] == a[k] + b[k]
    ensures Sum(c) == Sum(a) + Sum(b)
    decreases |c|
  {
    if c == map[] {
      assert a == map[] && b == map[];
    } else {
      var k :| k in c;
      SumTake(a, k);
      SumTake(b, k);
      SumTake(c, k);
      SumAdds(a - {k}, b - {k}, c - {k});
    }
  }
}
