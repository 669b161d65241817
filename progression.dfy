/**
 * Level-index arithmetic of `goToLevel` and `nextLevel`. JavaScript's `%`
 * truncates toward zero (the result takes the sign of the dividend) where
 * Dafny's `%` is Euclidean, so the source's operator is modelled by `JsRem`.
 */
module Progression {

  /** `LEVEL_COUNT`: the length of the level table. */
  const LevelCount: int := 7

  /** Euclidean remainder is determined by any quotient/remainder split with a remainder in [0, n). */
  lemma ModUnique(a: int, n: int, q: int, r: int)
    requires n > 0 && 0 <= r < n && a == q * n + r
    ensures a % n == r
  {
    var d := q - a / n;
    assert d * n == a % n - r;
  }

  /** JavaScript's `a % n` for a positive integer `n`. */
  function JsRem(a: int, n: int): (r: int)
    requires n > 0
    ensures -n < r < n
    ensures a >= 0 ==> r >= 0
    ensures a <= 0 ==> r <= 0
    ensures r % n == a % n
  {
    if a >= 0 then a % n
    else
      var m := (-a) % n;
      var q := (-a) / n;
      if m == 0 then
        ModUnique(a, n, -q, 0);
        0
      else
        ModUnique(a, n, -q - 1, n - m);
        ModUnique(-m, n, -1, n - m);
        -m
  }

  /**
   * `((a % n) + n) % n` with JavaScript's `%` is the Euclidean remainder of
   * `a`: it lies in [0, n) and is congruent to `a` modulo `n`, for negative
   * and overflowing `a` alike.
   */
  lemma WrapIsEuclidean(a: int, n: int)
    requires n > 0
    ensures JsRem(JsRem(a, n) + n, n) == a % n
  {
    var x := JsRem(a, n);
    ModUnique(x + n, n, x / n + 1, x % n);
  }

  /** The index `goToLevel(index)` stores. */
  function NormalizeIndex(index: int): (i: int)
    ensures 0 <= i < LevelCount
    ensures i == index % LevelCount
  {
    WrapIsEuclidean(index, LevelCount);
    JsRem(JsRem(index, LevelCount) + LevelCount, LevelCount)
  }

  /** The level after `i`, `(i + 1) % LEVEL_COUNT`: the last level is followed by the first. */
  function NextIndex(i: int): (r: int)
    requires 0 <= i < LevelCount
    ensures 0 <= r < LevelCount
    ensures i == LevelCount - 1 ==> r == 0
    ensures i < LevelCount - 1 ==> r == i + 1
  {
    JsRem(i + 1, LevelCount)
  }

  /** Going to an index that is already in range stores it unchanged. */
  lemma NormalizeInRange(i: int)
    requires 0 <= i < LevelCount
    ensures NormalizeIndex(i) == i
  {
  }
}
