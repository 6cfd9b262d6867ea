/** The sum of a map's values, whatever the order of summation. */
module MapSum {

  ghost function Sum<K(!new)>(m: map<K, int>): int {
    if m == map[] then 0
    else
      assert m.Keys != {};
      var k :| k in m;
      m[k] + Sum(m - {k})
  }

  lemma {:induction false} SumWithout<K(!new)>(m: map<K, int>, key: K)
    requires key in m
    ensures Sum(m) == m[key] + Sum(m - {key})
    decreases |m|
  {
    var k :| k in m && Sum(m) == m[k] + Sum(m - {k});
    if k != key {
      SumWithout(m - {k}, key);
      SumWithout(m - {key}, k);
      assert m - {k} - {key} == m - {key} - {k};
    }
  }

  lemma SumWith<K(!new)>(m: map<K, int>, key: K, v: int)
    ensures Sum(m[key := v]) == Sum(m) - (if key in m then m[key] else 0) + v
  {
    SumWithout(m[key := v], key);
    if key in m {
      SumWithout(m, key);
      assert m[key := v] - {key} == m - {key};
    } else {
      assert m[key := v] - {key} == m;
    }
  }

  lemma {:induction false} SumOfUnion<K(!new)>(a: map<K, int>, b: map<K, int>)
    requires a.Keys !! b.Keys
    ensures Sum(a + b) == Sum(a) + Sum(b)
    decreases |a|
  {
    if a == map[] {
      assert a + b == b;
    } else {
      assert a.Keys != {};
      var k :| k in a;
      var rest := a - {k};
      assert rest[k := a[k]] == a && |rest| < |a| by { assert rest.Keys == a.Keys - {k}; }
      SumOfUnion(rest, b);
      SumStep(rest, b, k, a[k]);
    }
  }

  lemma SumStep<K(!new)>(a: map<K, int>, b: map<K, int>, k: K, v: int)
    requires k !in a && k !in b && Sum(a + b) == Sum(a) + Sum(b)
    ensures Sum(a[k := v] + b) == Sum(a[k := v]) + Sum(b)
  {
    assert a[k := v] + b == (a + b)[k := v];
    SumWith(a, k, v);
    SumWith(a + b, k, v);
  }
}
