/** Sums over the values of a finite map, independent of any order of its keys. */
module MapSums {
  import opened Texts

  ghost function Sum(m: map<string, real>): real {
    if m == map[] then 0.0
    else var k := LeastOf(m.Keys); m[k] + Sum(m - {k})
  }

  lemma {:induction false} SumWithout(m: map<string, real>, k: string)
    requires k in m
    ensures Sum(m) == m[k] + Sum(m - {k})
    decreases |m|
  {
    var first := LeastOf(m.Keys);
    if k != first {
      var a, b := m - {first}, m - {k};
      assert a.Keys < m.Keys && b.Keys < m.Keys;
      SumWithout(a, k);
      SumWithout(b, first);
      assert a - {k} == b - {first};
      Smaller(a, m);
      Smaller(b, m);
    }
  }

  lemma Smaller(a: map<string, real>, m: map<string, real>)
    requires a.Keys < m.Keys
    ensures |a| < |m|
  {
    assert |a.Keys| < |m.Keys| by { SubsetCount(a.Keys, m.Keys); }
  }

  lemma {:induction false} SubsetCount(a: set<string>, b: set<string>)
    requires a < b
    ensures |a| < |b|
  {
    var x :| x in b && x !in a;
    if a != {} {
      var y :| y in a;
      SubsetCount(a - {y}, b - {y});
    }
  }

  function At(m: map<string, real>, k: string): real {
    if k in m then m[k] else 0.0
  }

  /** Setting one value changes the sum by the difference. */
  lemma SumSet(m: map<string, real>, k: string, v: real)
    ensures Sum(m[k := v]) == Sum(m) - At(m, k) + v
  {
    var n := m[k := v];
    SumWithout(n, k);
    if k in m {
      SumWithout(m, k);
      assert n - {k} == m - {k};
    } else {
      assert n - {k} == m;
    }
  }

  lemma SumDrop(m: map<string, real>, k: string)
    ensures Sum(m - {k}) == Sum(m) - At(m, k)
  {
    if k in m {
      SumWithout(m, k);
    } else {
      assert m - {k} == m;
    }
  }
}
