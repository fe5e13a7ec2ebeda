/** Numeric helpers with the semantics of the pandas Series operations the
    trading bot uses: sums, extremes and `rolling(window).mean()`. */
module Series {
  import opened Wrappers

  /** Sum of a sequence of reals; the sum of non-negative values is
      non-negative. */
  function Sum(s: seq<real>): (r: real)
    ensures (forall k :: 0 <= k < |s| ==> s[k] >= 0.0) ==> r >= 0.0
  {
    if |s| == 0 then 0.0 else s[0] + Sum(s[1..])
  }

  /** Sum of values bounded by `lo` and `hi` is bounded by `|s|*lo` and `|s|*hi`. */
  lemma {:induction false} SumBounds(s: seq<real>, lo: real, hi: real)
    requires forall k :: 0 <= k < |s| ==> lo <= s[k] <= hi
    ensures |s| as real * lo <= Sum(s) <= |s| as real * hi
  {
    if |s| > 0 {
      SumBounds(s[1..], lo, hi);
      assert |s| as real * lo == lo + (|s| - 1) as real * lo;
      assert |s| as real * hi == hi + (|s| - 1) as real * hi;
    }
  }

  /** Arithmetic mean of a non-empty window. */
  function Mean(s: seq<real>): real
    requires |s| > 0
  {
    Sum(s) / |s| as real
  }

  /** A non-negative sum has a non-negative mean. */
  lemma MeanNonNegative(s: seq<real>)
    requires |s| > 0 && Sum(s) >= 0.0
    ensures Mean(s) >= 0.0
  {
    var n := |s| as real;
    DivideMonotone(0.0, Sum(s), n);
    assert 0.0 / n == 0.0;
  }

  /** Dividing by a positive number keeps the order. */
  lemma DivideMonotone(a: real, b: real, n: real)
    requires n > 0.0 && a <= b
    ensures a / n <= b / n
  {
    assert b / n - a / n == (b - a) / n;
  }

  /** A mean lies between the bounds of what it averages. */
  lemma MeanBounds(s: seq<real>, lo: real, hi: real)
    requires |s| > 0
    requires forall k :: 0 <= k < |s| ==> lo <= s[k] <= hi
    ensures lo <= Mean(s) <= hi
  {
    SumBounds(s, lo, hi);
    DivideBounds(Sum(s), |s| as real, lo, hi);
  }

  /** A quotient by `n > 0` of a value between `n * lo` and `n * hi` lies
      between `lo` and `hi`. */
  lemma DivideBounds(x: real, n: real, lo: real, hi: real)
    requires n > 0.0 && n * lo <= x <= n * hi
    ensures lo <= x / n <= hi
  {
    var q := x / n;
    assert q * n == x;
    assert (q - lo) * n == x - n * lo && (hi - q) * n == n * hi - x;
  }

  /** Smallest element of a non-empty sequence. */
  function Min(s: seq<real>): (m: real)
    requires |s| > 0
    ensures forall k :: 0 <= k < |s| ==> m <= s[k]
    ensures exists k :: 0 <= k < |s| && m == s[k]
  {
    if |s| == 1 then s[0]
    else
      var rest := Min(s[1..]);
      assert forall k :: 1 <= k < |s| ==> s[k] == s[1..][k - 1];
      if s[0] <= rest then s[0] else rest
  }

  /** Largest element of a non-empty sequence. */
  function Max(s: seq<real>): (m: real)
    requires |s| > 0
    ensures forall k :: 0 <= k < |s| ==> s[k] <= m
    ensures exists k :: 0 <= k < |s| && m == s[k]
  {
    if |s| == 1 then s[0]
    else
      var rest := Max(s[1..]);
      assert forall k :: 1 <= k < |s| ==> s[k] == s[1..][k - 1];
      if s[0] >= rest then s[0] else rest
  }

  /** Last element (pandas `iloc[-1]`). */
  function Last<T>(s: seq<T>): T
    requires |s| > 0
  {
    s[|s| - 1]
  }

  /** A column of values that are all defined. */
  function Defined(s: seq<real>): (r: seq<Option<real>>)
    ensures |r| == |s|
    ensures forall i :: 0 <= i < |s| ==> r[i] == Some(s[i])
  {
    seq(|s|, i requires 0 <= i < |s| => Some(s[i]))
  }

  /** pandas `s.rolling(window=w).mean()` on a column without NaN: the first
      `w - 1` entries are NaN (the warm-up), entry `i` after that is the mean
      of the `w` values ending at `i`. */
  function RollingMean(s: seq<real>, window: nat): (r: seq<Option<real>>)
    requires window >= 1
    ensures |r| == |s|
    ensures forall i :: 0 <= i < |s| ==> (r[i].Some? <==> i >= window - 1)
    ensures forall i :: window - 1 <= i < |s| ==> r[i] == Some(Mean(s[i + 1 - window .. i + 1]))
  {
    seq(|s|, i requires 0 <= i < |s| =>
      if i < window - 1 then None else Some(Mean(s[i + 1 - window .. i + 1])))
  }
}
