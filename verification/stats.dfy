/** Sums, means and extremes of real sequences (Python's `sum`, `min`, `max`
    and pandas' `mean`, `min`, `max` on columns without NaN). */
module Stats {

  /** The product of two non-negative numbers is non-negative. */
  lemma MulNonneg(x: real, y: real)
    requires x >= 0.0 && y >= 0.0
    ensures x * y >= 0.0
  {
  }

  function Sum(s: seq<real>): real {
    if |s| == 0 then 0.0 else s[0] + Sum(s[1..])
  }

  /** The arithmetic mean; Python divides by zero on an empty list, so callers check. */
  function Mean(s: seq<real>): real
    requires |s| > 0
  {
    Sum(s) / |s| as real
  }

  /** The smallest element. */
  function Min(s: seq<real>): (m: real)
    requires |s| > 0
    ensures m in s
    ensures forall i :: 0 <= i < |s| ==> m <= s[i]
  {
    if |s| == 1 then s[0]
    else
      var rest := Min(s[1..]);
      if s[0] <= rest then s[0] else rest
  }

  /** The largest element. */
  function Max(s: seq<real>): (m: real)
    requires |s| > 0
    ensures m in s
    ensures forall i :: 0 <= i < |s| ==> s[i] <= m
  {
    if |s| == 1 then s[0]
    else
      var rest := Max(s[1..]);
      if s[0] >= rest then s[0] else rest
  }

  lemma {:induction false} SumAppend(a: seq<real>, b: seq<real>)
    ensures Sum(a + b) == Sum(a) + Sum(b)
  {
    if |a| > 0 {
      assert (a + b)[1..] == a[1..] + b;
      SumAppend(a[1..], b);
    } else {
      assert a + b == b;
    }
  }

  /** Every element at least `lo` makes the sum at least `|s| * lo`. */
  lemma {:induction false} SumLowerBound(s: seq<real>, lo: real)
    requires forall i :: 0 <= i < |s| ==> lo <= s[i]
    ensures |s| as real * lo <= Sum(s)
  {
    if |s| > 0 {
      SumLowerBound(s[1..], lo);
      assert |s| as real * lo == lo + (|s| - 1) as real * lo;
    }
  }

  /** Every element at most `hi` makes the sum at most `|s| * hi`. */
  lemma {:induction false} SumUpperBound(s: seq<real>, hi: real)
    requires forall i :: 0 <= i < |s| ==> s[i] <= hi
    ensures Sum(s) <= |s| as real * hi
  {
    if |s| > 0 {
      SumUpperBound(s[1..], hi);
      assert |s| as real * hi == hi + (|s| - 1) as real * hi;
    }
  }

  /** The mean lies between any common lower and upper bound of the elements. */
  lemma MeanBetween(s: seq<real>, lo: real, hi: real)
    requires |s| > 0
    requires forall i :: 0 <= i < |s| ==> lo <= s[i] <= hi
    ensures lo <= Mean(s) <= hi
  {
    SumLowerBound(s, lo);
    SumUpperBound(s, hi);
    var n := |s| as real;
    assert n * lo <= Sum(s) <= n * hi;
    assert lo == (n * lo) / n && hi == (n * hi) / n;
  }

  /** The mean of positive numbers is positive. */
  lemma MeanPositive(s: seq<real>)
    requires |s| > 0
    requires forall i :: 0 <= i < |s| ==> s[i] > 0.0
    ensures Mean(s) > 0.0
  {
    MeanBetween(s, Min(s), Max(s));
  }

  /** The mean of `n` copies of `c` is `c`. */
  lemma MeanOfConstant(s: seq<real>, c: real)
    requires |s| > 0
    requires forall i :: 0 <= i < |s| ==> s[i] == c
    ensures Mean(s) == c
  {
    MeanBetween(s, c, c);
  }

  /** `(to - from) / from * 100`, the percentage change from `from` to `to`. */
  function PercentChange(from: real, to: real): real
    requires from != 0.0
  {
    (to - from) / from * 100.0
  }

  /** From a positive base, a change beyond `k` percent means `to` passes
      `from * (1 + k / 100)`, in either direction. */
  lemma PercentChangeThreshold(from: real, to: real, k: real)
    requires from > 0.0
    ensures PercentChange(from, to) > k <==> to > from * (1.0 + k / 100.0)
    ensures PercentChange(from, to) < k <==> to < from * (1.0 + k / 100.0)
  {
    var q := (to - from) / from;
    assert q * from == to - from;
    assert PercentChange(from, to) == q * 100.0;
    assert from * (1.0 + k / 100.0) == from + from * (k / 100.0);
    if q * 100.0 > k {
      assert q > k / 100.0;
      MulStrict(from, k / 100.0, q);
    }
    if q * 100.0 < k {
      assert q < k / 100.0;
      MulStrict(from, q, k / 100.0);
    }
    if to > from * (1.0 + k / 100.0) {
      assert q * from > (k / 100.0) * from;
    }
    if to < from * (1.0 + k / 100.0) {
      assert q * from < (k / 100.0) * from;
    }
  }

  lemma MulStrict(k: real, x: real, y: real)
    requires k > 0.0 && x < y
    ensures k * x < k * y
  {
  }

  /** A positive quantity over a no larger positive one is at least 1, and exactly 1 over itself. */
  lemma RatioAtLeastOne(a: real, b: real)
    requires 0.0 < b <= a
    ensures a / b >= 1.0
    ensures a == b ==> a / b == 1.0
  {
    var q := a / b;
    assert q * b == a;
    if q < 1.0 {
      MulStrict(b, q, 1.0);
    }
  }

  /** `w / s * 100` for `0 <= w <= s`, `s > 0`: a percentage, 100 exactly
      when `w == s` and 0 exactly when `w == 0`. */
  lemma RatioBounds(w: nat, s: nat)
    requires 0 < s && w <= s
    ensures 0.0 <= w as real / s as real * 100.0 <= 100.0
    ensures w as real / s as real * 100.0 == 100.0 <==> w == s
    ensures w as real / s as real * 100.0 == 0.0 <==> w == 0
  {
    var q := w as real / s as real;
    assert q * s as real == w as real;
    if q > 1.0 {
      MulStrict(s as real, 1.0, q);
    } else if q < 1.0 {
      MulStrict(s as real, q, 1.0);
    }
    if q < 0.0 {
      MulStrict(s as real, q, 0.0);
    } else if q > 0.0 {
      MulStrict(s as real, 0.0, q);
    }
  }
}
