/** The pause between restarts (go/subprocess.go, lines 160 and 217-223) in int64. */
module Backoff {

  const TWO_62 := 0x4000_0000_0000_0000
  const TWO_63 := 0x8000_0000_0000_0000
  const TWO_64 := 0x1_0000_0000_0000_0000

  predicate Int64(n: int) {
    -TWO_63 <= n < TWO_63
  }

  /** Two's complement wrap-around of a duration. */
  function Wrap64(n: int): (w: int)
    ensures Int64(w)
    ensures Int64(n) ==> w == n
    ensures (w - n) % TWO_64 == 0
  {
    (n + TWO_63) % TWO_64 - TWO_63
  }

  function Next(backoff: int, max: int): int {
    var doubled := Wrap64(backoff * 2);
    if doubled > max then max else doubled
  }

  /** The pause before restart number k + 1. */
  function Pause(min: int, max: int, k: nat): int {
    if k == 0 then min else Next(Pause(min, max, k - 1), max)
  }

  function Pow2(k: nat): (p: nat)
    ensures p > 0
  {
    if k == 0 then 1 else 2 * Pow2(k - 1)
  }

  function Least(a: int, b: int): int {
    if a < b then a else b
  }

  predicate Moderate(min: int, max: int) {
    0 <= min < TWO_62 && 0 <= max < TWO_62
  }

  /** The first pause is MinBackoff even when it exceeds MaxBackoff; every later one is
      the doubled minimum cut at the maximum. */
  lemma {:induction false} PauseIsCappedDoubling(min: int, max: int, k: nat)
    requires Moderate(min, max)
    ensures Pause(min, max, k) == if k == 0 then min else Least(min * Pow2(k), max)
  {
    if k > 0 {
      PauseIsCappedDoubling(min, max, k - 1);
      DoubleDistributes(min, k);
      if k == 1 {
        assert Pow2(0) == 1;
      }
    }
  }

  lemma DoubleDistributes(min: int, k: nat)
    requires k > 0
    ensures min * Pow2(k) == 2 * (min * Pow2(k - 1))
  {
    var p := Pow2(k - 1);
    assert Pow2(k) == 2 * p;
    assert min * (2 * p) == 2 * (min * p);
  }

  predicate DoublesSafely(min: int, max: int, k: nat) {
    Int64(2 * Pause(min, max, k))
  }

  ghost predicate NeverWraps(min: int, max: int) {
    forall k: nat :: DoublesSafely(min, max, k)
  }

  lemma {:induction false} NegativeWraps(min: int, max: int, k: nat)
    requires Int64(max) && Int64(Pause(min, max, k)) && Pause(min, max, k) < 0
    ensures !NeverWraps(min, max)
    decreases Pause(min, max, k) + TWO_63
  {
    if DoublesSafely(min, max, k) {
      assert Pause(min, max, k + 1) == Next(Pause(min, max, k), max);
      NegativeWraps(min, max, k + 1);
    }
  }

  lemma {:induction false} GrowthWraps(min: int, max: int, k: nat)
    requires TWO_62 <= max < TWO_63 && 0 < Pause(min, max, k) < TWO_63
    ensures !NeverWraps(min, max)
    decreases TWO_63 - Pause(min, max, k)
  {
    if DoublesSafely(min, max, k) {
      assert Pause(min, max, k + 1) == Next(Pause(min, max, k), max);
      GrowthWraps(min, max, k + 1);
    }
  }

  lemma {:induction false} ZeroStays(max: int, k: nat)
    requires max >= 0
    ensures Pause(0, max, k) == 0
  {
    if k > 0 {
      ZeroStays(max, k - 1);
    }
  }

  lemma ModerateIsSafe(min: int, max: int)
    requires Moderate(min, max)
    ensures NeverWraps(min, max)
  {
    forall k: nat ensures DoublesSafely(min, max, k) {
      PauseIsCappedDoubling(min, max, k);
      PauseNotNegative(min, k);
    }
  }

  lemma PauseNotNegative(min: int, k: nat)
    requires min >= 0
    ensures min * Pow2(k) >= 0
  {
  }

  /** Exactly which policies never wrap, however often the runtime is restarted. */
  lemma NeverWrapsIff(min: int, max: int)
    requires Int64(min) && Int64(max)
    ensures NeverWraps(min, max) <==> Moderate(min, max) || (min == 0 && max >= 0)
  {
    assert Pause(min, max, 0) == min;
    if Moderate(min, max) {
      ModerateIsSafe(min, max);
    } else if min == 0 && max >= 0 {
      forall k: nat ensures DoublesSafely(min, max, k) {
        ZeroStays(max, k);
      }
    } else if min < 0 {
      NegativeWraps(min, max, 0);
    } else if min >= TWO_62 {
      assert !DoublesSafely(min, max, 0);
    } else if max < 0 {
      assert Pause(min, max, 1) == max;
      NegativeWraps(min, max, 1);
    } else {
      GrowthWraps(min, max, 0);
    }
  }
}
