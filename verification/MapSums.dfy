/** Sums of natural-number maps, independent of any order of the keys. */
module MapSums {

  ghost function Sum<K>(m: map<K, nat>): nat
    decreases m.Keys
  {
    if m == map[] then 0
    else
      var k :| k in m;
      m[k] + Sum(m - {k})
  }

  /** Any key may be taken out first. */
  lemma {:induction false} SumPick<K>(m: map<K, nat>, k: K)
    requires k in m
    ensures Sum(m) == m[k] + Sum(m - {k})
    decreases m.Keys
  {
    var j :| j in m && Sum(m) == m[j] + Sum(m - {j});
    if j != k {
      SumPick(m - {j}, k);
      SumPick(m - {k}, j);
      assert m - {j} - {k} == m - {k} - {j};
    }
  }

  lemma {:induction false} SumAtLeast<K>(m: map<K, nat>, k: K)
    requires k in m
    ensures Sum(m) >= m[k]
  {
    SumPick(m, k);
  }

  /** Pointwise sums add up. */
  lemma {:induction false} SumAdds<K>(a: map<K, nat>, b: map<K, nat>, c: map<K, nat>)
    requires a.Keys == b.Keys == c.Keys
    requires forall k | k in c :: c[k] == a[k] + b[k]
    ensures Sum(c) == Sum(a) + Sum(b)
    decreases c.Keys
  {
    if c == map[] {
      assert a == map[] && b == map[];
    } else {
      var k :| k in c;
      SumPick(a, k);
      SumPick(b, k);
      SumPick(c, k);
      SumAdds(a - {k}, b - {k}, c - {k});
    }
  }

  /** Entries of zero add nothing. */
  lemma {:induction false} SumDropsZeros<K>(a: map<K, nat>, b: map<K, nat>)
    requires b.Keys <= a.Keys
    requires forall k | k in a :: a[k] == if k in b then b[k] else 0
    ensures Sum(a) == Sum(b)
    decreases a.Keys
  {
    if a == map[] {
      assert b == map[];
    } else {
      var k :| k in a;
      SumPick(a, k);
      if k in b {
        SumPick(b, k);
      }
      SumDropsZeros(a - {k}, b - {k});
      assert k !in b ==> b - {k} == b;
    }
  }
}
