/** Shared vocabulary: optional values, results, and sums over finite maps. */
module Prelude {

  datatype Option<+T> = None | Some(value: T)

  datatype Result<+T, +E> = Ok(value: T) | Err(error: E)

  /** Sum of a weight over the entries of a finite map. */
  ghost function Total<K(!new), V>(m: map<K, V>, weight: (K, V) -> int): int
    decreases |m|
  {
    if m == map[] then 0
    else
      var k :| k in m;
      weight(k, m[k]) + Total(m - {k}, weight)
  }

  /** The sum does not depend on which entry is taken out first. */
  lemma {:induction false} TotalSplit<K(!new), V>(m: map<K, V>, weight: (K, V) -> int, k: K)
    requires k in m
    ensures Total(m, weight) == weight(k, m[k]) + Total(m - {k}, weight)
    decreases |m|
  {
    var first :| first in m && Total(m, weight) == weight(first, m[first]) + Total(m - {first}, weight);
    if first != k {
      TotalSplit(m - {first}, weight, k);
      TotalSplit(m - {k}, weight, first);
      assert m - {first} - {k} == m - {k} - {first};
    }
  }

  /** Adding or replacing one entry changes the sum by that entry alone. */
  lemma TotalUpdate<K(!new), V>(m: map<K, V>, weight: (K, V) -> int, k: K, v: V)
    ensures Total(m[k := v], weight)
         == Total(m, weight) - (if k in m then weight(k, m[k]) else 0) + weight(k, v)
  {
    var n := m[k := v];
    TotalSplit(n, weight, k);
    assert n - {k} == m - {k};
    if k in m {
      TotalSplit(m, weight, k);
    } else {
      assert m - {k} == m;
    }
  }

  /** Two weights that agree on every entry give the same sum. */
  lemma {:induction false} TotalCongruence<K(!new), V>(m: map<K, V>, f: (K, V) -> int, g: (K, V) -> int)
    requires forall k :: k in m ==> f(k, m[k]) == g(k, m[k])
    ensures Total(m, f) == Total(m, g)
    decreases |m|
  {
    if m != map[] {
      var k :| k in m;
      TotalSplit(m, f, k);
      TotalSplit(m, g, k);
      TotalCongruence(m - {k}, f, g);
    }
  }

  /** A pointwise bound on weights bounds the sums. */
  lemma {:induction false} TotalMonotone<K(!new), V>(m: map<K, V>, f: (K, V) -> int, g: (K, V) -> int)
    requires forall k :: k in m ==> f(k, m[k]) <= g(k, m[k])
    ensures Total(m, f) <= Total(m, g)
    decreases |m|
  {
    if m != map[] {
      var k :| k in m;
      TotalSplit(m, f, k);
      TotalSplit(m, g, k);
      TotalMonotone(m - {k}, f, g);
    }
  }

  lemma {:induction false} TotalNonNegative<K(!new), V>(m: map<K, V>, f: (K, V) -> int)
    requires forall k :: k in m ==> f(k, m[k]) >= 0
    ensures Total(m, f) >= 0
    decreases |m|
  {
    if m != map[] {
      var k :| k in m;
      TotalSplit(m, f, k);
      TotalNonNegative(m - {k}, f);
    }
  }

  lemma {:induction false} TotalZero<K(!new), V>(m: map<K, V>, f: (K, V) -> int)
    requires forall k :: k in m ==> f(k, m[k]) == 0
    ensures Total(m, f) == 0
    decreases |m|
  {
    if m != map[] {
      var k :| k in m;
      TotalSplit(m, f, k);
      TotalZero(m - {k}, f);
    }
  }

  ghost predicate Injective<K>(m: map<K, nat>) {
    forall a, b :: a in m && b in m && m[a] == m[b] ==> a == b
  }

  /** An injective numbering within 1..bound has at most `bound` entries. */
  lemma {:induction false} InjectiveBound<K>(m: map<K, nat>, bound: nat)
    requires Injective(m) && forall k :: k in m ==> 1 <= m[k] <= bound
    ensures |m| <= bound
  {
    if bound > 0 {
      if last :| last in m && m[last] == bound {
        InjectiveBound(m - {last}, bound - 1);
      } else {
        InjectiveBound(m, bound - 1);
      }
    }
  }

  ghost predicate Hit<K>(m: map<K, nat>, n: nat) { exists k :: k in m && m[k] == n }

  /** An injective numbering of N entries within 1..N uses every number. */
  lemma InjectiveOnto<K>(m: map<K, nat>, n: nat)
    requires Injective(m) && forall k :: k in m ==> 1 <= m[k] <= |m|
    requires 1 <= n <= |m|
    ensures Hit(m, n)
  {
    if !Hit(m, n) {
      var closed: map<K, nat> := map k | k in m :: if m[k] > n then m[k] - 1 else m[k];
      assert forall k :: k in m ==> m[k] != n;
      assert closed.Keys == m.Keys;
      assert |closed| == |closed.Keys| == |m.Keys| == |m|;
      InjectiveBound(closed, |m| - 1);
    }
  }
}
