/** `strategies.py`: turning the exchange's kline records into a DataFrame
    sorted by time, and the EMA/RSI decision rule. */
module Strategies {
  import opened Wrappers
  import opened Series
  import opened Market
  import opened Indicators

  /** The `ValueError` pandas raises when the records do not have exactly the
      seven columns the frame is given (an empty history included). */
  datatype FrameError = ColumnMismatch

  /** Number of columns a kline record carries. */
  const Width: nat := 7

  /** Records pandas can label with the seven column names. */
  predicate WellShaped(rows: seq<seq<real>>) {
    |rows| > 0 && forall i :: 0 <= i < |rows| ==> |rows[i]| == Width
  }

  /** Positional mapping of one record onto the seven columns. */
  function ParseRow(row: seq<real>): Bar
    requires |row| == Width
  {
    Bar(row[0], row[1], row[2], row[3], row[4], row[5], row[6])
  }

  /** The cells of a bar in column order. */
  function Cells(b: Bar): (row: seq<real>)
    ensures |row| == Width
  {
    [b.timestamp, b.open, b.high, b.low, b.close, b.volume, b.turnover]
  }

  /** The column mapping loses nothing: reading a bar back in column order
      gives the record, and vice versa. */
  lemma ParseRowRoundTrip(row: seq<real>, b: Bar)
    requires |row| == Width
    ensures Cells(ParseRow(row)) == row
    ensures ParseRow(Cells(b)) == b
  {
    assert Cells(ParseRow(row))[..] == row[..];
  }

  /** The records as bars, in the order received. */
  function ParseRows(rows: seq<seq<real>>): (bars: seq<Bar>)
    requires forall i :: 0 <= i < |rows| ==> |rows[i]| == Width
    ensures |bars| == |rows|
    ensures forall i :: 0 <= i < |rows| ==> bars[i] == ParseRow(rows[i])
  {
    seq(|rows|, i requires 0 <= i < |rows| => ParseRow(rows[i]))
  }

  /** What `prepare_dataframe` may produce from `rows`: the same bars, same
      count, in ascending timestamp order. The sort pandas uses by default is
      not stable, so among bars with equal timestamps any order is allowed. */
  ghost predicate IsPrepared(rows: seq<seq<real>>, bars: seq<Bar>) {
    && WellShaped(rows)
    && SortedByTimestamp(bars)
    && multiset(bars) == multiset(ParseRows(rows))
  }

  /** No two different bars share a timestamp (identical duplicates are
      allowed: they are interchangeable). */
  ghost predicate TimestampsIdentify(s: seq<Bar>) {
    forall i, j :: 0 <= i < |s| && 0 <= j < |s| && s[i].timestamp == s[j].timestamp ==> s[i] == s[j]
  }

  /** When timestamps identify bars, there is only one sorted arrangement of
      a multiset of bars. */
  lemma {:induction false} SortedArrangementUnique(s: seq<Bar>, t: seq<Bar>)
    requires SortedByTimestamp(s) && SortedByTimestamp(t)
    requires multiset(s) == multiset(t)
    requires TimestampsIdentify(s)
    ensures s == t
    decreases |s|
  {
    assert |s| == |multiset(s)| == |multiset(t)| == |t|;
    if |s| > 0 {
      var j := IndexOf(t, s[0]);
      var k := IndexOf(s, t[0]);
      assert s[0].timestamp <= s[k].timestamp == t[0].timestamp <= t[j].timestamp == s[0].timestamp;
      assert s[0] == t[0];
      TailsAgree(s, t);
      SortedArrangementUnique(s[1..], t[1..]);
    }
  }

  /** Dropping a common first bar keeps the premises of
      `SortedArrangementUnique`. */
  lemma TailsAgree(s: seq<Bar>, t: seq<Bar>)
    requires |s| > 0 && |t| > 0 && s[0] == t[0]
    requires SortedByTimestamp(s) && SortedByTimestamp(t)
    requires multiset(s) == multiset(t)
    requires TimestampsIdentify(s)
    ensures SortedByTimestamp(s[1..]) && SortedByTimestamp(t[1..])
    ensures multiset(s[1..]) == multiset(t[1..])
    ensures TimestampsIdentify(s[1..])
  {
    assert s == [s[0]] + s[1..] && t == [t[0]] + t[1..];
    assert multiset(s[1..]) == multiset(s) - multiset{s[0]};
    assert multiset(t[1..]) == multiset(t) - multiset{t[0]};
  }

  /** A position at which an element of the multiset of `s` occurs. */
  lemma IndexOf(s: seq<Bar>, x: Bar) returns (i: nat)
    requires x in multiset(s)
    ensures i < |s| && s[i] == x
  {
    assert x in s;
    i :| 0 <= i < |s| && s[i] == x;
  }

  /** A well-shaped history has exactly one preparation when no two
      different bars in it share a timestamp. */
  lemma PreparedUnique(rows: seq<seq<real>>, b1: seq<Bar>, b2: seq<Bar>)
    requires IsPrepared(rows, b1) && IsPrepared(rows, b2)
    requires TimestampsIdentify(ParseRows(rows))
    ensures b1 == b2
  {
    var p := ParseRows(rows);
    forall i, j | 0 <= i < |b1| && 0 <= j < |b1| && b1[i].timestamp == b1[j].timestamp
      ensures b1[i] == b1[j]
    {
      assert b1[i] in multiset(p) && b1[j] in multiset(p);
      var x :| 0 <= x < |p| && p[x] == b1[i];
      var y :| 0 <= y < |p| && p[y] == b1[j];
    }
    SortedArrangementUnique(b1, b2);
  }

  /** Exchanges two entries of `a`. */
  method Swap(a: array<Bar>, i: nat, j: nat)
    requires i < a.Length && j < a.Length
    modifies a
    ensures a[..] == old(a[..])[i := old(a[j])][j := old(a[i])]
    ensures multiset(a[..]) == multiset(old(a[..]))
  {
    a[i], a[j] := a[j], a[i];
  }

  /** `df.sort_values('timestamp', inplace=True)`: sorts the rows in place
      by ascending timestamp. */
  method SortByTimestamp(a: array<Bar>)
    modifies a
    ensures SortedByTimestamp(a[..])
    ensures multiset(a[..]) == multiset(old(a[..]))
  {
    var i := 0;
    while i < a.Length
      invariant 0 <= i <= a.Length
      invariant SortedByTimestamp(a[..i])
      invariant multiset(a[..]) == multiset(old(a[..]))
    {
      var j := i;
      while j > 0 && a[j - 1].timestamp > a[j].timestamp
        invariant 0 <= j <= i
        invariant multiset(a[..]) == multiset(old(a[..]))
        invariant forall p, q :: 0 <= p < q <= i && p != j && q != j ==> a[p].timestamp <= a[q].timestamp
        invariant forall q :: j < q <= i ==> a[j].timestamp <= a[q].timestamp
        invariant 0 < j < i ==> a[j - 1].timestamp <= a[j + 1].timestamp
      {
        Swap(a, j - 1, j);
        j := j - 1;
      }
      i := i + 1;
    }
    assert a[..a.Length] == a[..];
  }

  /** `prepare_dataframe(historical_data)`: labels the seven columns (raising
      when the records do not have exactly seven), and sorts the rows by
      timestamp. */
  method PrepareDataframe(historicalData: seq<seq<real>>) returns (r: Result<Frame, FrameError>)
    ensures r.Err? <==> !WellShaped(historicalData)
    ensures r.Ok? ==> fresh(r.value) && r.value.Valid() && r.value.columns == map[]
    ensures r.Ok? ==> IsPrepared(historicalData, r.value.bars)
  {
    if !WellShaped(historicalData) {
      return Err(ColumnMismatch);
    }
    var parsed := ParseRows(historicalData);
    var a := new Bar[|parsed|](i requires 0 <= i < |parsed| => parsed[i]);
    assert a[..] == parsed;
    SortByTimestamp(a);
    var df := new Frame(a[..]);
    return Ok(df);
  }

  /** The three indicator columns the bot writes into the frame:
      EMA over 9 and 21 bars and RSI over 14. */
  function IndicatorColumns(bars: seq<Bar>): (m: map<string, Column>)
    ensures forall name :: name in m ==> |m[name]| == |bars|
  {
    map["EMA_9" := Defined(Ema(Closes(bars), 9)),
        "EMA_21" := Defined(Ema(Closes(bars), 21)),
        "RSI" := Rsi(Closes(bars), 14)]
  }

  /** The decision rule of `ema_rsi_strategy` on the latest values, where
      `None` is NaN and every comparison with NaN is false. */
  function EmaRsiDecision(ema9: Option<real>, ema21: Option<real>, rsi: Option<real>): (t: Option<Trend>)
    ensures t == Some(Short) <==>
      ema9.Some? && ema21.Some? && rsi.Some? && ema9.value > ema21.value && rsi.value > 50.0
    ensures t == Some(Long) <==>
      ema9.Some? && ema21.Some? && rsi.Some? && ema9.value < ema21.value && rsi.value < 50.0
    ensures t == None <==>
      !(ema9.Some? && ema21.Some? && rsi.Some?) || ema9.value == ema21.value || rsi.value == 50.0 ||
      (ema9.value > ema21.value && rsi.value < 50.0) || (ema9.value < ema21.value && rsi.value > 50.0)
  {
    if ema9.Some? && ema21.Some? && rsi.Some? && ema9.value > ema21.value && rsi.value > 50.0 then
      Some(Short)
    else if ema9.Some? && ema21.Some? && rsi.Some? && ema9.value < ema21.value && rsi.value < 50.0 then
      Some(Long)
    else
      None
  }

  /** `ema_rsi_strategy` on a prepared frame: the rule applied to the last
      row of the indicator columns. */
  function EmaRsiSignal(bars: seq<Bar>): Option<Trend>
    requires |bars| > 0
  {
    var columns := IndicatorColumns(bars);
    EmaRsiDecision(Last(columns["EMA_9"]), Last(columns["EMA_21"]), Last(columns["RSI"]))
  }

  /** Only the last row's EMA 9, EMA 21 and RSI decide: two histories that
      agree on those three values get the same signal. */
  lemma EmaRsiSignalReadsLastRow(b1: seq<Bar>, b2: seq<Bar>)
    requires |b1| > 0 && |b2| > 0
    requires Last(Ema(Closes(b1), 9)) == Last(Ema(Closes(b2), 9))
    requires Last(Ema(Closes(b1), 21)) == Last(Ema(Closes(b2), 21))
    requires Last(Rsi(Closes(b1), 14)) == Last(Rsi(Closes(b2), 14))
    ensures EmaRsiSignal(b1) == EmaRsiSignal(b2)
  {
  }

  /** With fewer than 14 bars the RSI is still warming up, so the strategy
      never proposes a trade. */
  lemma EmaRsiSignalNeedsRsi(bars: seq<Bar>)
    requires 0 < |bars| < 14
    ensures EmaRsiSignal(bars) == None
  {
    assert Last(Rsi(Closes(bars), 14)) == None;
  }

  /** `ema_rsi_strategy(historical_data)`: prepares the frame, writes the
      three indicator columns into it and decides on the last row. `bars` is
      the order the sort chose. */
  method EmaRsiStrategy(historicalData: seq<seq<real>>)
    returns (r: Result<Option<Trend>, FrameError>, ghost bars: seq<Bar>)
    ensures r.Err? <==> !WellShaped(historicalData)
    ensures r.Ok? ==> IsPrepared(historicalData, bars) && r.value == EmaRsiSignal(bars)
  {
    var prepared := PrepareDataframe(historicalData);
    if prepared.Err? {
      return Err(prepared.error), [];
    }
    var df := prepared.value;
    bars := df.bars;
    df.SetColumn("EMA_9", Defined(Ema(Closes(df.bars), 9)));
    df.SetColumn("EMA_21", Defined(Ema(Closes(df.bars), 21)));
    df.SetColumn("RSI", Rsi(Closes(df.bars), 14));
    var ema9 := Last(df.columns["EMA_9"]);
    var ema21 := Last(df.columns["EMA_21"]);
    var rsi := Last(df.columns["RSI"]);
    r := Ok(EmaRsiDecision(ema9, ema21, rsi));
  }
}
