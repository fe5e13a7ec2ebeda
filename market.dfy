/** The market data the bot works on: one kline (price bar) per row, the
    direction a strategy proposes, and the pandas DataFrame that carries the
    bars together with the indicator columns computed from them. */
module Market {
  import opened Wrappers

  /** One kline record in the column layout the bot gives it:
      timestamp, open, high, low, close, volume, turnover. */
  datatype Bar = Bar(timestamp: real, open: real, high: real, low: real,
                     close: real, volume: real, turnover: real)

  /** The direction a strategy proposes: `'long'` or `'short'`. */
  datatype Trend = Long | Short {
    /** The string the Python code uses for the direction. */
    function Name(): string {
      match this
      case Long => "long"
      case Short => "short"
    }
  }

  /** Column of close prices. */
  function Closes(bars: seq<Bar>): (c: seq<real>)
    ensures |c| == |bars|
    ensures forall i :: 0 <= i < |bars| ==> c[i] == bars[i].close
  {
    seq(|bars|, i requires 0 <= i < |bars| => bars[i].close)
  }

  /** Rows ascending by timestamp. */
  predicate SortedByTimestamp(s: seq<Bar>) {
    forall p, q :: 0 <= p < q < |s| ==> s[p].timestamp <= s[q].timestamp
  }

  /** A derived column: one value per row, `None` where pandas holds NaN. */
  type Column = seq<Option<real>>

  /** A snapshot of a DataFrame: its bars and the columns added to it. */
  datatype Table = Table(bars: seq<Bar>, columns: map<string, Column>)

  /** The pandas DataFrame the bot builds from the exchange's klines. The
      seven source columns are kept row by row in `bars`; every column added
      later (`df['EMA_9'] = ...`) is an entry of `columns`. */
  class Frame {
    var bars: seq<Bar>
    var columns: map<string, Column>

    /** Every added column is aligned with the rows. */
    ghost predicate Valid()
      reads this
    {
      forall name :: name in columns ==> |columns[name]| == |bars|
    }

    constructor (bars: seq<Bar>)
      ensures Valid()
      ensures this.bars == bars && columns == map[]
    {
      this.bars := bars;
      columns := map[];
    }

    /** `df[name] = values`: adds the column, or replaces it if present; the
        rows and every other column stay as they were. */
    method SetColumn(name: string, values: Column)
      requires Valid() && |values| == |bars|
      modifies this
      ensures Valid()
      ensures bars == old(bars) && columns == old(columns)[name := values]
    {
      columns := columns[name := values];
    }

    /** The frame's current contents as a value. */
    function View(): Table
      reads this
    {
      Table(bars, columns)
    }
  }
}
