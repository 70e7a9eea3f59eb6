/** Sums over the rows of a table, as SQL's SUM and COUNT give them. */
module MapSums {
  ghost function Pick<K, V>(m: map<K, V>): (k: K)
    requires m != map[]
    ensures k in m
  {
    var k :| k in m; k
  }

  ghost function Sum<K, V>(m: map<K, V>, f: (K, V) -> nat): nat
    decreases |m|
  {
    if m == map[] then 0 else f(Pick(m), m[Pick(m)]) + Sum(m - {Pick(m)}, f)
  }

  lemma {:induction false} SumRemove<K, V>(m: map<K, V>, k: K, f: (K, V) -> nat)
    requires k in m
    ensures Sum(m, f) == f(k, m[k]) + Sum(m - {k}, f)
    decreases |m|
  {
    var first := Pick(m);
    if k != first {
      SumRemove(m - {first}, k, f);
      SumRemove(m - {k}, first, f);
      assert m - {first} - {k} == m - {k} - {first};
    }
  }

  lemma SumPut<K, V>(m: map<K, V>, k: K, v: V, f: (K, V) -> nat)
    ensures Sum(m[k := v], f) == f(k, v) + Sum(m - {k}, f)
  {
    SumRemove(m[k := v], k, f);
    assert m[k := v] - {k} == m - {k};
  }

  lemma SumAdd<K, V>(m: map<K, V>, k: K, v: V, f: (K, V) -> nat)
    requires k !in m
    ensures Sum(m[k := v], f) == f(k, v) + Sum(m, f)
  {
    SumPut(m, k, v, f);
    assert m - {k} == m;
  }

  lemma SumReplace<K, V>(m: map<K, V>, k: K, v: V, f: (K, V) -> nat)
    ensures Sum(m[k := v], f) + (if k in m then f(k, m[k]) else 0) == Sum(m, f) + f(k, v)
  {
    SumPut(m, k, v, f);
    if k in m { SumRemove(m, k, f); } else { assert m - {k} == m; }
  }

  lemma {:induction false} SumAtMost<K, V>(m: map<K, V>, f: (K, V) -> nat, g: (K, V) -> nat)
    requires forall k :: k in m ==> f(k, m[k]) <= g(k, m[k])
    ensures Sum(m, f) <= Sum(m, g)
    decreases |m|
  {
    if m != map[] { SumAtMost(m - {Pick(m)}, f, g); }
  }

  /** Rows that weigh nothing may be dropped. */
  lemma {:induction false} SumDrop<K, V>(m: map<K, V>, less: map<K, V>, f: (K, V) -> nat)
    requires forall k :: k in less ==> k in m && less[k] == m[k]
    requires forall k :: k in m && k !in less ==> f(k, m[k]) == 0
    ensures Sum(less, f) == Sum(m, f)
    decreases |m|
  {
    if m == map[] {
      assert less == map[];
    } else {
      var k := Pick(m);
      SumDrop(m - {k}, less - {k}, f);
      if k in less { SumRemove(less, k, f); } else { assert less - {k} == less; }
    }
  }

  /** Rows of a table that satisfy a test, counted. */
  lemma {:induction false} SumCounts<K, V>(m: map<K, V>, f: (K, V) -> nat, keys: set<K>)
    requires forall k :: k in keys ==> k in m
    requires forall k :: k in m ==> f(k, m[k]) == if k in keys then 1 else 0
    ensures Sum(m, f) == |keys|
    decreases |m|
  {
    if m == map[] {
      assert keys == {};
    } else {
      var k := Pick(m);
      SumCounts(m - {k}, f, keys - {k});
    }
  }

  method Total<K(==), V>(m: map<K, V>, f: (K, V) -> nat) returns (total: nat)
    ensures total == Sum(m, f)
  {
    total := 0;
    var rest := m;
    while rest.Keys != {}
      invariant total + Sum(rest, f) == Sum(m, f)
      decreases |rest|
    {
      var k :| k in rest.Keys;
      SumRemove(rest, k, f);
      total, rest := total + f(k, rest[k]), rest - {k};
    }
  }
}
