/** `risk_management.py`: the average true range of the bars and the
    stop-loss / take-profit bracket sized from it. */
module Risk {
  import opened Wrappers
  import opened Series
  import opened Market

  function Abs(x: real): real {
    if x < 0.0 then -x else x
  }

  /** `previous_close`: the close of the row before, NaN in row 0. */
  function PreviousCloseColumn(bars: seq<Bar>): (c: Column)
    ensures |c| == |bars|
    ensures |bars| > 0 ==> c[0] == None
    ensures forall i :: 0 < i < |bars| ==> c[i] == Some(bars[i - 1].close)
  {
    seq(|bars|, i requires 0 <= i < |bars| => if i == 0 then None else Some(bars[i - 1].close))
  }

  /** `tr1 = high - low`. */
  function RangeColumn(bars: seq<Bar>): (c: Column)
    ensures |c| == |bars|
  {
    seq(|bars|, i requires 0 <= i < |bars| => Some(bars[i].high - bars[i].low))
  }

  /** `tr2 = |high - previous_close|`, NaN in row 0. */
  function HighGapColumn(bars: seq<Bar>): (c: Column)
    ensures |c| == |bars|
  {
    seq(|bars|, i requires 0 <= i < |bars| =>
      if i == 0 then None else Some(Abs(bars[i].high - bars[i - 1].close)))
  }

  /** `tr3 = |low - previous_close|`, NaN in row 0. */
  function LowGapColumn(bars: seq<Bar>): (c: Column)
    ensures |c| == |bars|
  {
    seq(|bars|, i requires 0 <= i < |bars| =>
      if i == 0 then None else Some(Abs(bars[i].low - bars[i - 1].close)))
  }

  /** True range of row `i`: the largest of `tr1`, `tr2`, `tr3` that is
      defined. In row 0 the two gaps are NaN and `max(axis=1)` skips them,
      so the true range is `high - low`. */
  function TrueRange(bars: seq<Bar>, i: nat): (tr: real)
    requires i < |bars|
    ensures tr >= bars[i].high - bars[i].low
    ensures i > 0 ==> tr >= Abs(bars[i].high - bars[i - 1].close) && tr >= Abs(bars[i].low - bars[i - 1].close)
    ensures tr == bars[i].high - bars[i].low ||
            (i > 0 && (tr == Abs(bars[i].high - bars[i - 1].close) || tr == Abs(bars[i].low - bars[i - 1].close)))
  {
    var range := bars[i].high - bars[i].low;
    if i == 0 then range
    else
      var up := Abs(bars[i].high - bars[i - 1].close);
      var down := Abs(bars[i].low - bars[i - 1].close);
      if range >= up && range >= down then range
      else if up >= down then up
      else down
  }

  /** The `tr` column. */
  function TrueRanges(bars: seq<Bar>): (t: seq<real>)
    ensures |t| == |bars|
    ensures forall i :: 0 <= i < |bars| ==> t[i] == TrueRange(bars, i)
  {
    seq(|bars|, i requires 0 <= i < |bars| => TrueRange(bars, i))
  }

  /** The five columns `calculate_atr` writes into the caller's frame. */
  function AtrColumns(bars: seq<Bar>): map<string, Column> {
    map["previous_close" := PreviousCloseColumn(bars),
        "tr1" := RangeColumn(bars),
        "tr2" := HighGapColumn(bars),
        "tr3" := LowGapColumn(bars),
        "tr" := Defined(TrueRanges(bars))]
  }

  /** Writing the five columns one after the other adds `AtrColumns`. */
  lemma AtrColumnsAdded(m: map<string, Column>, bars: seq<Bar>)
    ensures m["previous_close" := PreviousCloseColumn(bars)]["tr1" := RangeColumn(bars)]
             ["tr2" := HighGapColumn(bars)]["tr3" := LowGapColumn(bars)]
             ["tr" := Defined(TrueRanges(bars))] == m + AtrColumns(bars)
  {
  }

  /** `df['tr'].rolling(window=period).mean().iloc[-1]`. */
  function Atr(bars: seq<Bar>, period: nat): Option<real>
    requires |bars| > 0 && period >= 1
  {
    Last(RollingMean(TrueRanges(bars), period))
  }

  /** ATR is NaN exactly when there are fewer bars than the period, and is
      otherwise the mean true range of the last `period` bars. */
  lemma AtrDefinedIff(bars: seq<Bar>, period: nat)
    requires |bars| > 0 && period >= 1
    ensures Atr(bars, period).Some? <==> |bars| >= period
    ensures |bars| >= period ==> Atr(bars, period) == Some(Mean(TrueRanges(bars)[|bars| - period ..]))
  {
    var n := |bars|;
    if n >= period {
      assert TrueRanges(bars)[n - period .. n] == TrueRanges(bars)[n - period ..];
    }
  }

  /** A true range is non-negative, except in row 0 when high is below low. */
  lemma TrueRangeNonNegative(bars: seq<Bar>, i: nat)
    requires i < |bars|
    requires i == 0 ==> bars[0].low <= bars[0].high
    ensures TrueRange(bars, i) >= 0.0
  {
  }

  /** A defined ATR is non-negative unless the window reaches back to a
      first bar whose high is below its low: every later true range is at
      least a gap's absolute value. */
  lemma AtrNonNegative(bars: seq<Bar>, period: nat)
    requires |bars| > 0 && period >= 1
    requires Atr(bars, period).Some?
    requires |bars| > period || bars[0].low <= bars[0].high
    ensures Atr(bars, period).value >= 0.0
  {
    var n := |bars|;
    AtrDefinedIff(bars, period);
    var t := TrueRanges(bars);
    var w := t[n - period ..];
    forall k | 0 <= k < |w|
      ensures w[k] >= 0.0
    {
      var j := n - period + k;
      assert w[k] == t[j];
      TrueRangeNonNegative(bars, j);
    }
    assert Sum(w) >= 0.0;
    MeanNonNegative(w);
  }

  /** A defined ATR lies between the smallest and the largest true range of
      its window. */
  lemma AtrWithinWindow(bars: seq<Bar>, period: nat)
    requires |bars| >= period >= 1
    ensures var w := TrueRanges(bars)[|bars| - period ..];
      Min(w) <= Atr(bars, period).value <= Max(w)
  {
    AtrDefinedIff(bars, period);
    var w := TrueRanges(bars)[|bars| - period ..];
    MeanBounds(w, Min(w), Max(w));
  }

  /** The bracket sent with an order. */
  datatype Bracket = Bracket(stopLoss: real, takeProfit: real)

  /** Stop and target around `price`: the stop `multiplier * atr` away
      against the trend, the target `ratio` times that distance with it. */
  function BracketFor(price: real, trend: Trend, atr: real, multiplier: real, ratio: real): (b: Bracket)
  {
    var distance := multiplier * atr;
    match trend
    case Long => Bracket(price - distance, price + distance * ratio)
    case Short => Bracket(price + distance, price - distance * ratio)
  }

  /** With positive multiplier, ATR and ratio, a long bracket has
      stop < price < target and a short one target < price < stop. */
  lemma BracketOrdering(price: real, trend: Trend, atr: real, multiplier: real, ratio: real)
    requires multiplier > 0.0 && atr > 0.0 && ratio > 0.0
    ensures var b := BracketFor(price, trend, atr, multiplier, ratio);
      match trend
      case Long => b.stopLoss < price < b.takeProfit
      case Short => b.takeProfit < price < b.stopLoss
  {
    var d := multiplier * atr;
    assert d > 0.0;
    assert d * ratio > 0.0;
  }

  /** In both directions the target lies `ratio` times as far from the price
      as the stop, on the other side, and the stop lies `multiplier * atr`
      from the price. */
  lemma BracketDistances(price: real, trend: Trend, atr: real, multiplier: real, ratio: real)
    ensures var b := BracketFor(price, trend, atr, multiplier, ratio);
      && b.takeProfit - price == ratio * (price - b.stopLoss)
      && Abs(b.stopLoss - price) == Abs(multiplier * atr)
  {
  }

  /** Worked example: price 100, ATR 2, multiplier 1.5 and ratio 1.5 give a
      long bracket of stop 97 and target 104.5. */
  lemma BracketExample()
    ensures BracketFor(100.0, Long, 2.0, 1.5, 1.5) == Bracket(97.0, 104.5)
  {
  }

  /** The exceptions `calculate_risk_management` raises: `ValueError` for a
      trend string other than `'long'`/`'short'`, `IndexError` from
      `iloc[-1]` on a frame without rows. */
  datatype RiskError = InvalidTrend | EmptyFrame

  /** The sizing step of `calculate_risk_management` on an already computed
      ATR: an invalid trend string raises whatever the ATR; a NaN ATR yields
      a NaN bracket (`None`); otherwise the bracket for the trend. */
  function SizeBracket(price: real, trend: string, atr: Option<real>, multiplier: real, ratio: real)
    : (r: Result<Option<Bracket>, RiskError>)
    ensures r.Err? <==> trend != "long" && trend != "short"
    ensures r.Ok? ==> (r.value.Some? <==> atr.Some?)
    ensures r.Ok? && atr.Some? ==>
      exists t: Trend :: t.Name() == trend && r.value.value == BracketFor(price, t, atr.value, multiplier, ratio)
  {
    if trend == "long" then
      Ok(if atr.Some? then Some(BracketFor(price, Long, atr.value, multiplier, ratio)) else None)
    else if trend == "short" then
      assert Short.Name() == trend;
      Ok(if atr.Some? then Some(BracketFor(price, Short, atr.value, multiplier, ratio)) else None)
    else Err(InvalidTrend)
  }

  /** A trend that came from a strategy is always accepted and sized by its
      own direction. */
  lemma SizeBracketOfTrend(price: real, t: Trend, atr: real, multiplier: real, ratio: real)
    ensures SizeBracket(price, t.Name(), Some(atr), multiplier, ratio) == Ok(Some(BracketFor(price, t, atr, multiplier, ratio)))
  {
    if t.Long? {
      assert t.Name() != "short";
    }
  }

  /** What `calculate_atr` returns for these bars: the `IndexError` of
      `iloc[-1]` when there are none, otherwise the last rolling mean. */
  function AtrOf(bars: seq<Bar>, period: nat): (r: Result<Option<real>, RiskError>)
    requires period >= 1
    ensures r.Err? <==> |bars| == 0
    ensures r.Err? ==> r.error == EmptyFrame
    ensures r.Ok? ==> (r.value.Some? <==> |bars| >= period)
  {
    if |bars| == 0 then Err(EmptyFrame)
    else
      AtrDefinedIff(bars, period);
      Ok(Atr(bars, period))
  }

  /** What `calculate_risk_management` returns: the ATR's `IndexError` comes
      first, before the trend is looked at. */
  function RiskFor(price: real, trend: string, bars: seq<Bar>, period: nat, multiplier: real, ratio: real)
    : (r: Result<Option<Bracket>, RiskError>)
    requires period >= 1
    ensures |bars| == 0 ==> r == Err(EmptyFrame)
    ensures |bars| > 0 ==> r == SizeBracket(price, trend, Atr(bars, period), multiplier, ratio)
  {
    match AtrOf(bars, period)
    case Err(e) => Err(e)
    case Ok(atr) => SizeBracket(price, trend, atr, multiplier, ratio)
  }

  /** The risk settings of the bot. */
  class RiskManagement {
    const atrPeriod: nat
    const atrMultiplier: real
    const riskRatio: real

    constructor (atrPeriod: nat := 14, atrMultiplier: real := 1.5, riskRatio: real := 1.5)
      requires atrPeriod >= 1
      ensures this.atrPeriod == atrPeriod && this.atrMultiplier == atrMultiplier && this.riskRatio == riskRatio
    {
      this.atrPeriod := atrPeriod;
      this.atrMultiplier := atrMultiplier;
      this.riskRatio := riskRatio;
    }

    /** `calculate_atr(df)`: writes the five true-range columns into `df`,
        keeping its rows and its other columns, and returns the ATR of the
        last row, or raises `IndexError` when `df` has no rows. */
    method CalculateAtr(df: Frame) returns (r: Result<Option<real>, RiskError>)
      requires atrPeriod >= 1
      requires df.Valid()
      modifies df
      ensures df.Valid() && df.bars == old(df.bars)
      ensures df.columns == old(df.columns) + AtrColumns(df.bars)
      ensures r == AtrOf(df.bars, atrPeriod)
    {
      var bars := df.bars;
      df.SetColumn("previous_close", PreviousCloseColumn(bars));
      df.SetColumn("tr1", RangeColumn(bars));
      df.SetColumn("tr2", HighGapColumn(bars));
      df.SetColumn("tr3", LowGapColumn(bars));
      df.SetColumn("tr", Defined(TrueRanges(bars)));
      AtrColumnsAdded(old(df.columns), bars);
      if |bars| == 0 {
        r := Err(EmptyFrame);
      } else {
        r := Ok(Last(RollingMean(TrueRanges(bars), atrPeriod)));
      }
    }

    /** `calculate_risk_management(current_price, trend, df)`: the ATR
        columns are added to `df` first, then the bracket is sized or the
        exception raised. */
    method CalculateRiskManagement(currentPrice: real, trend: string, df: Frame)
      returns (r: Result<Option<Bracket>, RiskError>)
      requires atrPeriod >= 1
      requires df.Valid()
      modifies df
      ensures df.Valid() && df.bars == old(df.bars)
      ensures df.columns == old(df.columns) + AtrColumns(df.bars)
      ensures r == RiskFor(currentPrice, trend, df.bars, atrPeriod, atrMultiplier, riskRatio)
    {
      var atr := CalculateAtr(df);
      match atr
      case Err(e) => r := Err(e);
      case Ok(a) => r := SizeBracket(currentPrice, trend, a, atrMultiplier, riskRatio);
    }
  }
}
