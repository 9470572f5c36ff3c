/** `DataFrame.sample(n)`: a draw of `n` rows without replacement. */
module Sampling {

  function Min(a: int, b: int): int
  {
    if a <= b then a else b
  }

  /** `drawn` is a draw of `n` rows of `pool` in which no row of the pool is taken twice. */
  predicate Drawn<T(==)>(drawn: seq<T>, pool: seq<T>, n: nat)
  {
    |drawn| == n && multiset(drawn) <= multiset(pool)
  }

  /**
   * Draws `n` rows of `pool` without replacement; which rows, and in which
   * order, is left open (the source draws them at random). Asking for more
   * rows than the pool has is an error in the source, so callers ask for at
   * most `|pool|`.
   */
  method Sample<T(==)>(pool: seq<T>, n: nat) returns (drawn: seq<T>)
    requires n <= |pool|
    ensures Drawn(drawn, pool, n)
  {
    drawn := [];
    var remaining := pool;
    while |drawn| < n
      invariant |drawn| <= n
      invariant |drawn| + |remaining| == |pool|
      invariant multiset(drawn) + multiset(remaining) == multiset(pool)
      decreases n - |drawn|
    {
      var i :| 0 <= i < |remaining|;
      assert remaining == remaining[..i] + [remaining[i]] + remaining[i + 1..];
      drawn := drawn + [remaining[i]];
      remaining := remaining[..i] + remaining[i + 1..];
    }
  }
}
