/** Sums of the values of a finite map, independent of any enumeration order. */
module Totals {

  ghost function Total<K(!new)>(m: map<K, int>): int {
    if m == map[] then 0
    else
      var k :| k in m;
      m[k] + Total(m - {k})
  }

  lemma {:induction false} TotalPick<K(!new)>(m: map<K, int>, k: K)
    requires k in m
    ensures Total(m) == m[k] + Total(m - {k})
  {
    var j :| j in m && Total(m) == m[j] + Total(m - {j});
    if j != k {
      TotalPick(m - {j}, k);
      TotalPick(m - {k}, j);
      assert (m - {j}) - {k} == (m - {k}) - {j};
    }
  }

  /** Writing one key moves the total by the difference at that key. */
  lemma TotalUpdate<K(!new)>(m: map<K, int>, k: K, v: int)
    ensures Total(m[k := v]) == Total(m) - (if k in m then m[k] else 0) + v
  {
    var n := m[k := v];
    TotalPick(n, k);
    assert n - {k} == m - {k};
    if k in m {
      TotalPick(m, k);
    } else {
      assert m - {k} == m;
    }
  }

  /** Totals add pointwise. */
  lemma {:induction false} TotalSum<K(!new)>(m: map<K, int>, a: map<K, int>, b: map<K, int>)
    requires m.Keys == a.Keys == b.Keys
    requires forall k :: k in m ==> m[k] == a[k] + b[k]
    ensures Total(m) == Total(a) + Total(b)
  {
    if m == map[] {
      assert a == map[] && b == map[];
    } else {
      var k :| k in m;
      TotalPick(m, k);
      TotalPick(a, k);
      TotalPick(b, k);
      TotalSum(m - {k}, a - {k}, b - {k});
    }
  }

  /** Keys that hold zero do not matter. */
  lemma {:induction false} TotalPadded<K(!new)>(m: map<K, int>, padded: map<K, int>)
    requires m.Keys <= padded.Keys
    requires forall k :: k in padded ==> padded[k] == if k in m then m[k] else 0
    ensures Total(padded) == Total(m)
    decreases |padded|
  {
    if padded == map[] {
      assert m == map[];
    } else {
      var k :| k in padded;
      TotalPick(padded, k);
      if k in m {
        TotalPick(m, k);
        TotalPadded(m - {k}, padded - {k});
      } else {
        TotalPadded(m, padded - {k});
      }
    }
  }

  lemma {:induction false} TotalNonNegative<K(!new)>(m: map<K, int>)
    requires forall k :: k in m ==> m[k] >= 0
    ensures Total(m) >= 0
    ensures forall k :: k in m ==> m[k] <= Total(m)
  {
    if m != map[] {
      forall k | k in m ensures 0 <= m[k] <= Total(m) {
        TotalPick(m, k);
        TotalNonNegative(m - {k});
      }
      var k :| k in m;
      assert 0 <= m[k] <= Total(m);
    }
  }

  /** Renaming the keys one to one keeps the total. */
  lemma {:induction false} TotalReindex<K(!new), L(!new)>(m: map<K, int>, n: map<L, int>, rename: map<K, L>)
    requires rename.Keys == m.Keys
    requires forall k :: k in m ==> rename[k] in n && n[rename[k]] == m[k]
    requires forall j, k :: j in m && k in m && rename[j] == rename[k] ==> j == k
    requires forall l :: l in n ==> exists k :: k in m && rename[k] == l
    ensures Total(m) == Total(n)
    decreases |m|
  {
    if m == map[] {
      assert n == map[];
    } else {
      var k :| k in m;
      TotalPick(m, k);
      TotalPick(n, rename[k]);
      forall l | l in n - {rename[k]} ensures exists j :: j in m - {k} && rename[j] == l {
        var j :| j in m && rename[j] == l;
        assert j in m - {k};
      }
      TotalReindex(m - {k}, n - {rename[k]}, rename - {k});
    }
  }
}
