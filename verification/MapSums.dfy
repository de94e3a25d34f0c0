/** Weighted sums over the rows of a keyed table. */
module MapSums {

  ghost function SumMap<K, V>(m: map<K, V>, f: V -> int): int {
    if m == map[] then 0
    else
      var k :| k in m;
      f(m[k]) + SumMap(m - {k}, f)
  }

  /** The order in which rows are picked does not matter. */
  lemma {:induction false} SumMapPick<K, V>(m: map<K, V>, f: V -> int, k: K)
    requires k in m
    ensures SumMap(m, f) == f(m[k]) + SumMap(m - {k}, f)
  {
    var p :| p in m && SumMap(m, f) == f(m[p]) + SumMap(m - {p}, f);
    if p != k {
      SumMapPick(m - {p}, f, k);
      SumMapPick(m - {k}, f, p);
      assert m - {p} - {k} == m - {k} - {p};
    }
  }

  lemma SumMapInsert<K, V>(m: map<K, V>, f: V -> int, k: K, v: V)
    requires k !in m
    ensures SumMap(m[k := v], f) == SumMap(m, f) + f(v)
  {
    SumMapPick(m[k := v], f, k);
    assert m[k := v] - {k} == m;
  }

  lemma SumMapUpdate<K, V>(m: map<K, V>, f: V -> int, k: K, v: V)
    requires k in m
    ensures SumMap(m[k := v], f) == SumMap(m, f) - f(m[k]) + f(v)
  {
    SumMapPick(m, f, k);
    SumMapPick(m[k := v], f, k);
    assert m[k := v] - {k} == m - {k};
  }

  lemma {:induction false} SumMapNonNegative<K, V>(m: map<K, V>, f: V -> int)
    requires forall k :: k in m ==> f(m[k]) >= 0
    ensures SumMap(m, f) >= 0
  {
    if m != map[] {
      var k :| k in m;
      SumMapPick(m, f, k);
      SumMapNonNegative(m - {k}, f);
    }
  }

  /** Rows of `a` each outweighed by the row of the same key in `b`. */
  lemma {:induction false} SumMapDominated<K, V, W>(a: map<K, V>, f: V -> int, b: map<K, W>, g: W -> int)
    requires forall k :: k in a ==> k in b && f(a[k]) <= g(b[k])
    requires forall k :: k in b ==> g(b[k]) >= 0
    ensures SumMap(a, f) <= SumMap(b, g)
  {
    if a == map[] {
      SumMapNonNegative(b, g);
    } else {
      var k :| k in a;
      SumMapPick(a, f, k);
      SumMapPick(b, g, k);
      SumMapDominated(a - {k}, f, b - {k}, g);
    }
  }

  /** A row of `b` that `a` lacks leaves room for its weight. */
  lemma SumMapRoom<K, V, W>(a: map<K, V>, f: V -> int, b: map<K, W>, g: W -> int, k: K)
    requires forall i :: i in a ==> i in b && f(a[i]) <= g(b[i])
    requires forall i :: i in b ==> g(b[i]) >= 0
    requires k in b && k !in a
    ensures SumMap(a, f) + g(b[k]) <= SumMap(b, g)
  {
    SumMapPick(b, g, k);
    SumMapDominated(a, f, b - {k}, g);
  }

  lemma SumMapOne<K, V>(f: V -> int, k: K, v: V)
    ensures SumMap(map[k := v], f) == f(v)
  {
    SumMapPick(map[k := v], f, k);
    assert map[k := v] - {k} == map[];
  }
}
