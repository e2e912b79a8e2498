/** Mapping a tracked coordinate onto the 7-bit controller range. The
    arithmetic is over reals; the integer cast truncates toward zero as the
    C# `(int)` conversion does. */
module Normalize {

  /** Conversion of a real to an integer, rounding toward zero. */
  function Truncate(x: real): (r: int)
    ensures x >= 0.0 ==> 0 <= r && r as real <= x < r as real + 1.0
    ensures x < 0.0 ==> r <= 0 && r as real - 1.0 < x <= r as real
  {
    if x >= 0.0 then x.Floor else -((-x).Floor)
  }

  /** The lowest coordinate that normalises to `k` or more, for 0 < k <= 127
      and min < max. */
  function Threshold(min: real, max: real, k: int): real {
    min + (max - min) * (k as real) / 127.0
  }

  /** Scales `n` linearly so that `min` maps to 0 and `max` to 127,
      truncates, and clamps into 0..127. */
  function NormalizeControllerValue(n: real, min: real, max: real): (r: int)
    requires min != max
    ensures 0 <= r <= 127
    ensures min < max && n <= min ==> r == 0
    ensures min < max && n >= max ==> r == 127
    ensures max < min && n >= min ==> r == 0
    ensures max < min && n <= max ==> r == 127
  {
    ScaledBounds(n, min, max);
    var num := Truncate((n - min) / (max - min) * 127.0);
    if num < 0 then 0 else if num > 127 then 127 else num
  }

  /** Where the scaled coordinate lies when `n` is outside the bounds. */
  lemma ScaledBounds(n: real, min: real, max: real)
    requires min != max
    ensures var s := (n - min) / (max - min) * 127.0;
            && (min < max && n <= min ==> s <= 0.0)
            && (min < max && n >= max ==> s >= 127.0)
            && (max < min && n >= min ==> s <= 0.0)
            && (max < min && n <= max ==> s >= 127.0)
  {
    var d := max - min;
    if d > 0.0 {
      QuotientBounds(n - min, d);
    } else {
      QuotientBounds(min - n, -d);
      assert (n - min) / d == (min - n) / (-d);
    }
  }

  /** With increasing bounds, a result r below 127 says that `n` lies in the
      r-th of 127 equal-width buckets between min and max (bucket 0 also
      takes everything below min). The value 127 is reached only at or above
      max, not by a bucket of its own. */
  lemma {:induction false} NormalizeBucket(n: real, min: real, max: real)
    requires min < max
    ensures var r := NormalizeControllerValue(n, min, max);
            && (r == 0 || Threshold(min, max, r) <= n)
            && (r == 127 || n < Threshold(min, max, r + 1))
            && (r == 127 <==> n >= max)
  {
    var d := max - min;
    var s := (n - min) / d * 127.0;
    var r := NormalizeControllerValue(n, min, max);
    assert n == min + s * d / 127.0 by {
      assert (n - min) / d * d == n - min;
    }
    forall k: int | 0 <= k
      ensures (k as real <= s ==> Threshold(min, max, k) <= n)
      ensures (s < k as real ==> n < Threshold(min, max, k))
    {
      ThresholdScales(min, max, k, s);
    }
    if 0 < r < 127 {
      assert r as real <= s < r as real + 1.0;
      assert ((r + 1) as real) == r as real + 1.0;
    } else if r == 0 {
      assert s < 1.0;
      assert (0 + 1) as real == 1.0;
    } else {
      assert 127.0 <= s;
    }
    assert Threshold(min, max, 127) == max;
  }

  lemma QuotientBounds(a: real, d: real)
    requires d > 0.0
    ensures a <= 0.0 ==> a / d <= 0.0
    ensures a >= d ==> a / d >= 1.0
  {
  }

  /** Comparing a coordinate with a threshold is comparing its scaled value
      with the bucket index. */
  lemma ThresholdScales(min: real, max: real, k: int, s: real)
    requires min < max
    ensures k as real <= s ==> Threshold(min, max, k) <= min + s * (max - min) / 127.0
    ensures s < k as real ==> min + s * (max - min) / 127.0 < Threshold(min, max, k)
  {
  }

  lemma ThresholdMonotone(min: real, max: real, j: int, k: int)
    requires min < max && j <= k
    ensures Threshold(min, max, j) <= Threshold(min, max, k)
  {
  }

  /** With increasing bounds the normaliser never decreases as `n` grows. */
  lemma {:induction false} NormalizeMonotone(n1: real, n2: real, min: real, max: real)
    requires min < max && n1 <= n2
    ensures NormalizeControllerValue(n1, min, max) <= NormalizeControllerValue(n2, min, max)
  {
    var r1 := NormalizeControllerValue(n1, min, max);
    var r2 := NormalizeControllerValue(n2, min, max);
    if r2 < r1 {
      NormalizeBucket(n1, min, max);
      NormalizeBucket(n2, min, max);
      ThresholdMonotone(min, max, r2 + 1, r1);
      assert false;
    }
  }

  /** The x value sent: the normalised coordinate mirrored, so that a larger
      x coordinate gives a smaller controller value. */
  function MirroredValue(n: real, min: real, max: real): (r: int)
    requires min != max
    ensures 0 <= r <= 127
    ensures min < max && n <= min ==> r == 127
    ensures min < max && n >= max ==> r == 0
    ensures r + NormalizeControllerValue(n, min, max) == 127
  {
    127 - NormalizeControllerValue(n, min, max)
  }

  lemma MirroredAntitone(n1: real, n2: real, min: real, max: real)
    requires min < max && n1 <= n2
    ensures MirroredValue(n2, min, max) <= MirroredValue(n1, min, max)
  {
    NormalizeMonotone(n1, n2, min, max);
  }
}
