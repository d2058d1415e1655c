/**
 * Random helpers (packages/engine/src/utils/random.ts). The draw of `Math.random()` is a
 * parameter `r`, which the host guarantees to lie in [0, 1).
 */
module Random {
  import opened Wrappers
  import opened Numeric

  predicate IsDraw(r: real) {
    0.0 <= r < 1.0
  }

  /** `randomInteger(min, max)`: `Math.floor(r * (max - min + 1) + min)`. */
  function RandomInteger(min: int, max: int, r: real): int {
    Floor(Share(r, (max - min + 1) as real) + min as real)
  }

  /** The part `r * width` of a range that a draw selects. */
  function Share(r: real, width: real): real {
    r * width
  }

  /** For integers min ≤ max, every draw gives an integer in [min, max]. */
  lemma RandomIntegerInRange(min: int, max: int, r: real)
    requires min <= max && IsDraw(r)
    ensures min <= RandomInteger(min, max, r) <= max
  {
    var n := (max - min + 1) as real;
    DrawScaled(r, n);
  }

  /** `0 <= r < 1` scaled by a positive width stays in [0, width). */
  lemma DrawScaled(r: real, n: real)
    requires IsDraw(r) && 0.0 < n
    ensures 0.0 <= Share(r, n) < n
  {
    assert n - r * n == (1.0 - r) * n;
    PositiveProduct(1.0 - r, n);
    NonNegativeProduct(r, n);
  }

  lemma PositiveProduct(a: real, b: real)
    requires 0.0 < a && 0.0 < b
    ensures 0.0 < a * b
  {
  }

  lemma NonNegativeProduct(a: real, b: real)
    requires 0.0 <= a && 0.0 < b
    ensures 0.0 <= a * b
  {
  }

  /** Every integer of [min, max] is drawn by some r in [0, 1): the range is covered. */
  lemma RandomIntegerCovers(min: int, max: int, k: int)
    requires min <= k <= max
    ensures exists r :: IsDraw(r) && RandomInteger(min, max, r) == k
  {
    var n := (max - min + 1) as real;
    var r := (k - min) as real / n;
    DivideThenMultiply((k - min) as real, n);
    FractionBelowOne((k - min) as real, n);
    assert r * n + min as real == k as real;
    assert IsDraw(r) && RandomInteger(min, max, r) == k;
  }

  lemma DivideThenMultiply(a: real, d: real)
    requires d != 0.0
    ensures (a / d) * d == a
  {
  }

  lemma FractionBelowOne(a: real, d: real)
    requires 0.0 <= a < d
    ensures 0.0 <= a / d < 1.0
  {
  }

  /** `randomFloat(min, max)`: `r * (max - min) + min`. */
  function RandomFloat(min: real, max: real, r: real): real {
    Share(r, max - min) + min
  }

  /** For min < max, every draw gives a number in [min, max). */
  lemma RandomFloatInRange(min: real, max: real, r: real)
    requires min < max && IsDraw(r)
    ensures min <= RandomFloat(min, max, r) < max
  {
    DrawScaled(r, max - min);
  }

  /**
   * `pickRandom(iterable)`: index `randomInteger(0, length - 1)` of the elements; reading
   * past the end (only possible for an empty iterable) gives `undefined`, here `None`.
   */
  function PickIndex<T>(s: seq<T>, r: real): int {
    RandomInteger(0, |s| - 1, r)
  }

  function PickRandom<T>(s: seq<T>, r: real): Option<T> {
    var i := PickIndex(s, r);
    if 0 <= i < |s| then Some(s[i]) else None
  }

  /** From a non-empty sequence the pick is one of its elements, at an index in [0, |s| - 1]. */
  lemma PickRandomNonEmpty<T>(s: seq<T>, r: real)
    requires |s| > 0 && IsDraw(r)
    ensures 0 <= PickIndex(s, r) < |s|
    ensures PickRandom(s, r).Some? && PickRandom(s, r).value in s
  {
    RandomIntegerInRange(0, |s| - 1, r);
  }

  /** From an empty sequence the index is 0 and the pick is undefined. */
  lemma PickRandomEmpty<T>(s: seq<T>, r: real)
    requires |s| == 0 && IsDraw(r)
    ensures PickIndex(s, r) == 0 && PickRandom(s, r) == None
  {
  }

  /** Every element of a non-empty sequence can be picked. */
  lemma PickRandomCovers<T>(s: seq<T>, i: nat)
    requires i < |s|
    ensures exists r :: IsDraw(r) && PickRandom(s, r) == Some(s[i])
  {
    RandomIntegerCovers(0, |s| - 1, i);
    var r :| IsDraw(r) && RandomInteger(0, |s| - 1, r) == i;
    assert PickRandom(s, r) == Some(s[i]);
  }
}
