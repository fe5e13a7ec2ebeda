/** The two indicators of `indicators.py`, as functions of the close series:
    the exponential moving average of pandas `ewm(span, adjust=False).mean()`
    and the rolling-mean relative strength index. */
module Indicators {
  import opened Wrappers
  import opened Series

  /** Smoothing factor pandas derives from a span: 2 / (span + 1). */
  function Alpha(span: nat): (a: real)
    requires span >= 1
    ensures 0.0 < a <= 1.0
  {
    var d := (span + 1) as real;
    assert 2.0 <= d;
    assert 2.0 / d <= d / d;
    2.0 / d
  }

  /** `ewm(alpha, adjust=False).mean()`, built row by row: the first value
      is the first close; each later value moves from the previous one toward
      the new close by the fraction `alpha`. */
  function EmaWith(close: seq<real>, alpha: real): (e: seq<real>)
    ensures |e| == |close|
    decreases |close|
  {
    if |close| <= 1 then close
    else
      var p := EmaWith(close[..|close| - 1], alpha);
      p + [p[|p| - 1] + alpha * (close[|close| - 1] - p[|p| - 1])]
  }

  /** `calculate_ema(df, span)`: the EMA column of the closes. */
  function Ema(close: seq<real>, span: nat): (e: seq<real>)
    requires span >= 1
    ensures |e| == |close|
  {
    EmaWith(close, Alpha(span))
  }

  /** Computing the EMA of a prefix gives the prefix of the EMA: no value
      depends on later closes. */
  lemma {:induction false} EmaPrefix(close: seq<real>, alpha: real, k: nat)
    requires k <= |close|
    ensures EmaWith(close[..k], alpha) == EmaWith(close, alpha)[..k]
    decreases |close|
  {
    if k == |close| {
      assert close[..k] == close;
    } else {
      var init := close[..|close| - 1];
      EmaPrefix(init, alpha, k);
      assert init[..k] == close[..k];
    }
  }

  /** The pandas recurrence: `e[0] = close[0]` and
      `e[i] = e[i-1] + alpha * (close[i] - e[i-1])`. */
  lemma EmaRecurrence(close: seq<real>, alpha: real, i: nat)
    requires i < |close|
    ensures i == 0 ==> EmaWith(close, alpha)[0] == close[0]
    ensures i > 0 ==>
      EmaWith(close, alpha)[i] == EmaWith(close, alpha)[i - 1] + alpha * (close[i] - EmaWith(close, alpha)[i - 1])
  {
    var e := EmaWith(close, alpha);
    EmaPrefix(close, alpha, i + 1);
    if i == 0 {
      assert e[0] == EmaWith(close[..1], alpha)[0];
    } else {
      EmaPrefix(close, alpha, i);
      var pre := close[..i + 1];
      assert pre[..|pre| - 1] == close[..i];
      assert e[i] == EmaWith(pre, alpha)[i];
    }
  }

  /** One smoothing step stays between the previous value and the new close. */
  lemma StepBetween(prev: real, c: real, alpha: real, lo: real, hi: real)
    requires 0.0 < alpha <= 1.0
    requires lo <= prev <= hi && lo <= c <= hi
    ensures lo <= prev + alpha * (c - prev) <= hi
  {
    var d := c - prev;
    if d >= 0.0 {
      ProductNonNegative(alpha, d);
      ProductNonNegative(1.0 - alpha, d);
      assert alpha * d + (1.0 - alpha) * d == d;
    } else {
      ProductNonNegative(alpha, -d);
      ProductNonNegative(1.0 - alpha, -d);
      assert alpha * -d + (1.0 - alpha) * -d == -d;
    }
  }

  lemma ProductNonNegative(x: real, y: real)
    requires x >= 0.0 && y >= 0.0
    ensures x * y >= 0.0
  {
  }

  /** If every close lies in [lo, hi], so does every EMA value. */
  lemma {:induction false} EmaBounded(close: seq<real>, alpha: real, lo: real, hi: real)
    requires 0.0 < alpha <= 1.0
    requires forall k :: 0 <= k < |close| ==> lo <= close[k] <= hi
    ensures forall k :: 0 <= k < |close| ==> lo <= EmaWith(close, alpha)[k] <= hi
    decreases |close|
  {
    if |close| > 1 {
      var init := close[..|close| - 1];
      EmaBounded(init, alpha, lo, hi);
      var p := EmaWith(init, alpha);
      StepBetween(p[|p| - 1], close[|close| - 1], alpha, lo, hi);
    }
  }

  /** Each EMA value lies between the smallest and the largest close seen so
      far. */
  lemma EmaWithinRunningRange(close: seq<real>, span: nat, i: nat)
    requires span >= 1 && i < |close|
    ensures Min(close[..i + 1]) <= Ema(close, span)[i] <= Max(close[..i + 1])
  {
    var pre := close[..i + 1];
    EmaBounded(pre, Alpha(span), Min(pre), Max(pre));
    EmaPrefix(close, Alpha(span), i + 1);
    assert Ema(close, span)[i] == EmaWith(pre, Alpha(span))[i];
  }

  /** A constant close series has a constant EMA equal to it. */
  lemma EmaOfConstant(close: seq<real>, span: nat, c: real)
    requires span >= 1
    requires forall k :: 0 <= k < |close| ==> close[k] == c
    ensures forall k :: 0 <= k < |close| ==> Ema(close, span)[k] == c
  {
    EmaBounded(close, Alpha(span), c, c);
  }

  /** `delta.where(delta > 0, 0)` at row `i`: the rise from the previous close,
      or 0. Row 0 has no previous close; its NaN difference fails the
      condition and becomes 0. */
  function Gain(close: seq<real>, i: nat): real
    requires i < |close|
  {
    if i == 0 then 0.0
    else if close[i] - close[i - 1] > 0.0 then close[i] - close[i - 1]
    else 0.0
  }

  /** `-delta.where(delta < 0, 0)` at row `i`: the fall from the previous
      close, or 0 (row 0 included). */
  function Loss(close: seq<real>, i: nat): real
    requires i < |close|
  {
    if i == 0 then 0.0
    else if close[i] - close[i - 1] < 0.0 then -(close[i] - close[i - 1])
    else 0.0
  }

  /** The gain column; never negative. */
  function Gains(close: seq<real>): (g: seq<real>)
    ensures |g| == |close|
    ensures forall i :: 0 <= i < |close| ==> g[i] == Gain(close, i) && g[i] >= 0.0
  {
    seq(|close|, i requires 0 <= i < |close| => Gain(close, i))
  }

  /** The loss column; never negative. */
  function Losses(close: seq<real>): (l: seq<real>)
    ensures |l| == |close|
    ensures forall i :: 0 <= i < |close| ==> l[i] == Loss(close, i) && l[i] >= 0.0
  {
    seq(|close|, i requires 0 <= i < |close| => Loss(close, i))
  }

  /** Gain and loss split each difference: at most one of them is non-zero,
      and gain minus loss is the change from the previous close (0 in row 0). */
  lemma GainLossSplit(close: seq<real>, i: nat)
    requires i < |close|
    ensures Gain(close, i) == 0.0 || Loss(close, i) == 0.0
    ensures Gain(close, i) - Loss(close, i) == if i == 0 then 0.0 else close[i] - close[i - 1]
  {
  }

  /** `100 - 100 / (1 + gain / loss)` on the two window averages, with the
      float results of a zero average loss written out: a positive average
      gain over zero is +inf, which gives 100; zero over zero is NaN. */
  function RsiFrom(avgGain: real, avgLoss: real): (r: Option<real>)
    requires avgGain >= 0.0 && avgLoss >= 0.0
    ensures r.None? <==> avgGain == 0.0 && avgLoss == 0.0
    ensures avgLoss > 0.0 ==> r.Some? && 0.0 <= r.value < 100.0
    ensures avgLoss == 0.0 && avgGain > 0.0 ==> r == Some(100.0)
  {
    if avgLoss > 0.0 then
      var rs := avgGain / avgLoss;
      assert rs >= 0.0;
      var d := 1.0 + rs;
      assert 100.0 / d <= 100.0 / 1.0;
      assert 100.0 / d > 0.0;
      Some(100.0 - 100.0 / d)
    else if avgGain > 0.0 then Some(100.0)
    else None
  }

  /** Where the average loss is positive, RSI is the share of the average
      gain in the total average movement, scaled to 100. */
  lemma RsiIsGainShare(avgGain: real, avgLoss: real)
    requires avgGain >= 0.0 && avgLoss > 0.0
    ensures RsiFrom(avgGain, avgLoss) == Some(100.0 * avgGain / (avgGain + avgLoss))
  {
    var rs := avgGain / avgLoss;
    var t := avgGain + avgLoss;
    assert rs * avgLoss == avgGain;
    assert (1.0 + rs) * avgLoss == t;
    var d := 1.0 + rs;
    assert d == t / avgLoss;
    assert (100.0 / d) * t == 100.0 * avgLoss;
    assert 100.0 / d == 100.0 * avgLoss / t;
    var r := 100.0 - 100.0 / d;
    assert r * t == 100.0 * avgGain;
    assert r == 100.0 * avgGain / t;
    assert RsiFrom(avgGain, avgLoss) == Some(r);
  }

  /** `calculate_rsi(df, period)`: one value per row, NaN during the
      `period - 1` rows of rolling-window warm-up. */
  function Rsi(close: seq<real>, period: nat): (r: seq<Option<real>>)
    requires period >= 1
    ensures |r| == |close|
    ensures forall i :: 0 <= i < |close| && i < period - 1 ==> r[i] == None
  {
    var g := RollingMean(Gains(close), period);
    var l := RollingMean(Losses(close), period);
    seq(|close|, i requires 0 <= i < |close| =>
      if i < period - 1 then None
      else RsiFrom(g[i].value, l[i].value))
  }

  /** The RSI value at row `i` is `RsiFrom` of the mean gain and mean loss
      over the `period` rows ending at `i`. */
  lemma RsiAt(close: seq<real>, period: nat, i: nat)
    requires period >= 1 && period - 1 <= i < |close|
    ensures Rsi(close, period)[i] ==
      RsiFrom(Mean(Gains(close)[i + 1 - period .. i + 1]), Mean(Losses(close)[i + 1 - period .. i + 1]))
  {
  }

  /** Every defined RSI value lies in [0, 100]; it is below 100 exactly
      where the window had a fall. */
  lemma RsiInRange(close: seq<real>, period: nat, i: nat)
    requires period >= 1 && i < |close|
    requires Rsi(close, period)[i].Some?
    ensures 0.0 <= Rsi(close, period)[i].value <= 100.0
    ensures i >= period - 1 &&
      (Mean(Losses(close)[i + 1 - period .. i + 1]) > 0.0 <==> Rsi(close, period)[i].value < 100.0)
  {
    RsiAt(close, period, i);
  }
}
