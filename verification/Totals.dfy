/** Sums over finite tables, independent of the order in which rows are visited. */
module Totals {

  ghost function Pick<K>(m: map<K, real>): (k: K)
    requires |m| > 0
    ensures k in m
  {
    var k :| k in m; k
  }

  ghost function Sum<K>(m: map<K, real>): real
    decreases |m|
  {
    if |m| == 0 then 0.0
    else
      var k := Pick(m);
      assert (m - {k}).Keys == m.Keys - {k};
      m[k] + Sum(m - {k})
  }

  /** Any row may be taken first. */
  lemma {:induction false} SumRemove<K>(m: map<K, real>, k: K)
    requires k in m
    ensures Sum(m) == m[k] + Sum(m - {k})
    decreases |m|
  {
    var p := Pick(m);
    if p != k {
      assert (m - {p}).Keys == m.Keys - {p};
      assert (m - {k}).Keys == m.Keys - {k};
      SumRemove(m - {p}, k);
      SumRemove(m - {k}, p);
      assert m - {p} - {k} == m - {k} - {p};
    }
  }

  /** Writing one row changes the sum by exactly that row's change. */
  lemma SumPut<K>(m: map<K, real>, k: K, v: real)
    ensures Sum(m[k := v]) == Sum(m) - (if k in m then m[k] else 0.0) + v
  {
    SumRemove(m[k := v], k);
    assert m[k := v] - {k} == m - {k};
    if k in m {
      SumRemove(m, k);
    } else {
      assert m - {k} == m;
    }
  }

  ghost predicate NonNegative<K>(m: map<K, real>) {
    forall k :: k in m ==> m[k] >= 0.0
  }

  lemma {:induction false} SumNonNegative<K>(m: map<K, real>)
    requires NonNegative(m)
    ensures Sum(m) >= 0.0
    decreases |m|
  {
    if |m| > 0 {
      var p := Pick(m);
      assert (m - {p}).Keys == m.Keys - {p};
      SumNonNegative(m - {p});
    }
  }

  /** Removing rows from a nonnegative table does not raise its sum. */
  lemma SumDropBelow<K>(m: map<K, real>, k: K)
    requires NonNegative(m)
    ensures Sum(m - {k}) <= Sum(m)
  {
    if k in m {
      SumRemove(m, k);
    } else {
      assert m - {k} == m;
    }
  }

  lemma PartsWithout<K>(m: map<K, real>, a: map<K, real>, b: map<K, real>, k: K)
    requires a.Keys !! b.Keys && m == a + b && k in a
    ensures k in m && m[k] == a[k] && m - {k} == (a - {k}) + b && (a - {k}).Keys == a.Keys - {k}
  {
  }

  lemma EmptyPart<K>(a: map<K, real>, b: map<K, real>)
    requires |a| == 0
    ensures a + b == b
  {
    assert a.Keys == {};
  }

  /** A table split into two parts sums to the sum of the parts. */
  lemma {:induction false} SumSplit<K>(m: map<K, real>, a: map<K, real>, b: map<K, real>)
    requires a.Keys !! b.Keys && m == a + b
    ensures Sum(m) == Sum(a) + Sum(b)
    decreases |a|
  {
    if |a| == 0 {
      EmptyPart(a, b);
    } else {
      var k := Pick(a);
      PartsWithout(m, a, b, k);
      SumRemove(m, k);
      SumSplit(m - {k}, a - {k}, b);
    }
  }

  /** One pass over the rows, in whatever order they come. */
  method Total<K(==)>(m: map<K, real>) returns (total: real)
    ensures total == Sum(m)
  {
    total := 0.0;
    var rest := m;
    while |rest| > 0
      invariant total + Sum(rest) == Sum(m)
      decreases |rest|
    {
      var k :| k in rest;
      SumRemove(rest, k);
      assert (rest - {k}).Keys == rest.Keys - {k};
      total := total + rest[k];
      rest := rest - {k};
    }
  }
}
