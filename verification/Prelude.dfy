/** Shared vocabulary: the 64-bit modulus, optional values, the life of a process, and finite sums over maps. */
module Prelude {

  const UINT64 := 0x1_0000_0000_0000_0000

  datatype Option<+T> = None | Some(value: T)

  /** How many durable calls a process still makes before it dies. */
  datatype Life = Forever | For(calls: nat)

  function Tick(life: Life): Life
  {
    if life.For? && life.calls > 0 then For(life.calls - 1) else life
  }

  /** The process still makes `n` calls. */
  predicate Lives(life: Life, n: nat)
  {
    life.For? ==> life.calls >= n
  }

  /** The sum of `f` over the entries of a finite map. */
  ghost function SumMap<K(!new), V(!new)>(m: map<K, V>, f: (K, V) -> int): int
  {
    if m == map[] then 0
    else var k :| k in m; f(k, m[k]) + SumMap(m - {k}, f)
  }

  /** Any entry can be taken out of the sum first. */
  lemma {:induction false} SumMapPick<K(!new), V(!new)>(m: map<K, V>, f: (K, V) -> int, k: K)
    requires k in m
    ensures SumMap(m, f) == f(k, m[k]) + SumMap(m - {k}, f)
    decreases m
  {
    var j :| j in m && SumMap(m, f) == f(j, m[j]) + SumMap(m - {j}, f);
    if j != k {
      SumMapPick(m - {j}, f, k);
      SumMapPick(m - {k}, f, j);
      assert m - {j} - {k} == m - {k} - {j};
    }
  }

  /** Writing one key changes the sum by exactly the difference at that key. */
  lemma {:induction false} SumMapUpdate<K(!new), V(!new)>(m: map<K, V>, f: (K, V) -> int, k: K, v: V)
    ensures SumMap(m[k := v], f) == SumMap(m, f) + f(k, v) - (if k in m then f(k, m[k]) else 0)
  {
    SumMapPick(m[k := v], f, k);
    assert m[k := v] - {k} == m - {k};
    if k in m {
      SumMapPick(m, f, k);
    } else {
      assert m - {k} == m;
    }
  }

  /** A sum is monotone in its summand, and zero when every summand is. */
  lemma {:induction false} SumMapMono<K(!new), V(!new)>(m: map<K, V>, f: (K, V) -> int, g: (K, V) -> int)
    requires forall k :: k in m ==> f(k, m[k]) <= g(k, m[k])
    ensures SumMap(m, f) <= SumMap(m, g)
    decreases m
  {
    if m != map[] {
      var k :| k in m;
      SumMapPick(m, f, k);
      SumMapPick(m, g, k);
      assert forall j :: j in m - {k} ==> (m - {k})[j] == m[j];
      SumMapMono(m - {k}, f, g);
    }
  }

  lemma {:induction false} SumMapZero<K(!new), V(!new)>(m: map<K, V>, f: (K, V) -> int)
    requires forall k :: k in m ==> f(k, m[k]) == 0
    ensures SumMap(m, f) == 0
    decreases m
  {
    if m != map[] {
      var k :| k in m;
      SumMapPick(m, f, k);
      assert forall j :: j in m - {k} ==> (m - {k})[j] == m[j];
      SumMapZero(m - {k}, f);
    }
  }
}
