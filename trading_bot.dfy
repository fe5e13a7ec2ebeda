/** `trading_bot.py`: the bot's start-up check and its per-cycle `job`, a
    chain of gates that each may end the cycle early, in front of at most one
    bracketed market order. The exchange is an object whose answers are
    fixed in advance and which records every call made to it. */
module Bot {
  import opened Wrappers
  import opened Series
  import opened Market
  import opened Risk
  import opened Strategies
  import Indicators

  /** Seconds that must pass after a position closed before a new entry. */
  const CooldownSeconds: real := 120.0

  /** The last closed position as the exchange reports it; `updatedTime` is
      in milliseconds since the epoch. */
  datatype ClosedPosition = ClosedPosition(updatedTime: int)

  /** The exchange's answers for one cycle. A `None` or empty answer is what
      Python treats as false. `orderResult` is whether `place_order`
      returned a (truthy) receipt. */
  datatype Responses = Responses(
    lastClosedPosition: Option<ClosedPosition>,
    historicalData: Option<seq<seq<real>>>,
    openPositions: seq<string>,
    openOrders: seq<string>,
    realTimePrice: Option<real>,
    orderResult: bool)

  /** Order side sent to the exchange. */
  datatype Side = Buy | Sell

  /** One call to the exchange, with its arguments. */
  datatype Call =
    | QueryLastClosedPosition(symbol: string)
    | QueryHistoricalData(symbol: string, interval: string, limit: int)
    | QueryOpenPositions(symbol: string)
    | QueryOpenOrders(symbol: string)
    | QueryRealTimePrice(symbol: string)
    | SubmitOrder(symbol: string, side: Side, qty: real, currentPrice: real,
                  leverage: int, stopLoss: real, takeProfit: real)

  /** The exchange client (`data_fetcher`): each request is appended to
      `trace` and answered from `responses`. */
  class Gateway {
    const responses: Responses
    var trace: seq<Call>

    constructor (responses: Responses)
      ensures this.responses == responses && trace == []
    {
      this.responses := responses;
      trace := [];
    }

    method GetLastClosedPosition(symbol: string) returns (p: Option<ClosedPosition>)
      modifies this
      ensures trace == old(trace) + [QueryLastClosedPosition(symbol)]
      ensures p == responses.lastClosedPosition
    {
      trace := trace + [QueryLastClosedPosition(symbol)];
      p := responses.lastClosedPosition;
    }

    method GetHistoricalData(symbol: string, interval: string, limit: int) returns (h: Option<seq<seq<real>>>)
      modifies this
      ensures trace == old(trace) + [QueryHistoricalData(symbol, interval, limit)]
      ensures h == responses.historicalData
    {
      trace := trace + [QueryHistoricalData(symbol, interval, limit)];
      h := responses.historicalData;
    }

    method GetOpenPositions(symbol: string) returns (ps: seq<string>)
      modifies this
      ensures trace == old(trace) + [QueryOpenPositions(symbol)]
      ensures ps == responses.openPositions
    {
      trace := trace + [QueryOpenPositions(symbol)];
      ps := responses.openPositions;
    }

    method GetOpenOrders(symbol: string) returns (os: seq<string>)
      modifies this
      ensures trace == old(trace) + [QueryOpenOrders(symbol)]
      ensures os == responses.openOrders
    {
      trace := trace + [QueryOpenOrders(symbol)];
      os := responses.openOrders;
    }

    method GetRealTimePrice(symbol: string) returns (price: Option<real>)
      modifies this
      ensures trace == old(trace) + [QueryRealTimePrice(symbol)]
      ensures price == responses.realTimePrice
    {
      trace := trace + [QueryRealTimePrice(symbol)];
      price := responses.realTimePrice;
    }

    method PlaceOrder(symbol: string, side: Side, qty: real, currentPrice: real,
                      leverage: int, stopLoss: real, takeProfit: real) returns (ok: bool)
      modifies this
      ensures trace == old(trace) + [SubmitOrder(symbol, side, qty, currentPrice, leverage, stopLoss, takeProfit)]
      ensures ok == responses.orderResult
    {
      trace := trace + [SubmitOrder(symbol, side, qty, currentPrice, leverage, stopLoss, takeProfit)];
      ok := responses.orderResult;
    }
  }

  /** The bot's settings, read from the environment in the source. */
  datatype Config = Config(
    symbol: string,
    quantity: real,
    interval: string,
    limit: int,
    leverage: int,
    atrMultiplier: real,
    riskRatio: real,
    enableEmaRsiStrategy: bool)

  /** The strategy and sizing functions `job` calls whose code is not part of
      this model: `combine_indicators_strategy(df)` and
      `calculate_dynamic_risk_management(df, current_price, trend)`. */
  datatype Collaborators = Collaborators(
    combineIndicatorsStrategy: Table -> Option<Trend>,
    calculateDynamicRiskManagement: (Table, real, Trend) -> Bracket)

  /** Why a cycle ended without an order. */
  datatype Reason = RecentlyClosed | NoHistoricalData | PositionOpen | OrderOpen | NoRealTimePrice | NoSignal

  /** The result of one cycle: no action, one order sent (with whether the
      exchange accepted it), or the exception `prepare_dataframe` raised. */
  datatype Outcome =
    | NoAction(reason: Reason)
    | OrderPlaced(side: Side, qty: real, leverage: int, stopLoss: real, takeProfit: real, accepted: bool)
    | Raised(error: FrameError)

  /** A cycle's outcome and the calls it made to the exchange, in order. */
  datatype Cycle = Cycle(outcome: Outcome, calls: seq<Call>)

  /** `'Buy' if trend == 'long' else 'Sell'`. */
  function SideOf(trend: Trend): (side: Side)
    ensures side == Buy <==> trend == Long
  {
    if trend == Long then Buy else Sell
  }

  /** The last close was under `CooldownSeconds` ago; `updatedTime` is
      converted from milliseconds to seconds. */
  predicate InCooldown(p: ClosedPosition, now: real) {
    now - (p.updatedTime as real) / 1000.0 < CooldownSeconds
  }

  /** The frame `job` hands to the strategy: the prepared bars with the
      EMA 9, EMA 21 and RSI columns. */
  function IndicatorTable(bars: seq<Bar>): Table {
    Table(bars, IndicatorColumns(bars))
  }

  /** The cycle gets as far as preparing the frame: no cooldown, and a
      history that pandas accepts. */
  predicate ReachesFrame(r: Responses, now: real) {
    && !(r.lastClosedPosition.Some? && InCooldown(r.lastClosedPosition.value, now))
    && r.historicalData.Some?
    && WellShaped(r.historicalData.value)
  }

  /** The bars `job` worked on: a preparation of the history when the cycle
      got that far, nothing otherwise. */
  ghost predicate Candidate(r: Responses, now: real, bars: seq<Bar>) {
    if ReachesFrame(r, now) then IsPrepared(r.historicalData.value, bars) else bars == []
  }

  /** The second half of a cycle, once the frame with its indicator
      columns exists: the exposure gates, the price, the signal and the
      order. The calls start with the open-positions query. */
  function TradeSpec(cfg: Config, ext: Collaborators, r: Responses, table: Table): Cycle {
    var symbol := cfg.symbol;
    var c3 := [QueryOpenPositions(symbol)];
    if |r.openPositions| > 0 then Cycle(NoAction(PositionOpen), c3)
    else
      var c4 := c3 + [QueryOpenOrders(symbol)];
      if |r.openOrders| > 0 then Cycle(NoAction(OrderOpen), c4)
      else
        var c5 := c4 + [QueryRealTimePrice(symbol)];
        if r.realTimePrice.None? then Cycle(NoAction(NoRealTimePrice), c5)
        else
          var price := r.realTimePrice.value;
          match ext.combineIndicatorsStrategy(table)
          case None => Cycle(NoAction(NoSignal), c5)
          case Some(trend) =>
            var b := ext.calculateDynamicRiskManagement(table, price, trend);
            var side := SideOf(trend);
            Cycle(OrderPlaced(side, cfg.quantity, cfg.leverage, b.stopLoss, b.takeProfit, r.orderResult),
                  c5 + [SubmitOrder(symbol, side, cfg.quantity, price, cfg.leverage, b.stopLoss, b.takeProfit)])
  }

  /** One cycle of `job`, gate by gate, given the exchange's answers, the
      clock and the prepared bars. */
  function JobSpec(cfg: Config, ext: Collaborators, r: Responses, now: real, bars: seq<Bar>): Cycle {
    var symbol := cfg.symbol;
    var c1 := [QueryLastClosedPosition(symbol)];
    if r.lastClosedPosition.Some? && InCooldown(r.lastClosedPosition.value, now) then
      Cycle(NoAction(RecentlyClosed), c1)
    else
      var c2 := c1 + [QueryHistoricalData(symbol, cfg.interval, cfg.limit)];
      if r.historicalData.None? then Cycle(NoAction(NoHistoricalData), c2)
      else if !WellShaped(r.historicalData.value) then Cycle(Raised(ColumnMismatch), c2)
      else
        var rest := TradeSpec(cfg, ext, r, IndicatorTable(bars));
        Cycle(rest.outcome, c2 + rest.calls)
  }

  /** Position of each kind of call in the fixed order of `job`. */
  function Stage(c: Call): nat {
    match c
    case QueryLastClosedPosition(_) => 0
    case QueryHistoricalData(_, _, _) => 1
    case QueryOpenPositions(_) => 2
    case QueryOpenOrders(_) => 3
    case QueryRealTimePrice(_) => 4
    case SubmitOrder(_, _, _, _, _, _, _) => 5
  }

  /** The calls of a cycle follow the gates in their fixed order, each at
      most once, all for the configured symbol; a cycle that stops at a gate
      makes no later call. In particular at most one order is submitted, and
      only as the last call. */
  lemma GatesInOrder(cfg: Config, ext: Collaborators, r: Responses, now: real, bars: seq<Bar>)
    ensures var c := JobSpec(cfg, ext, r, now, bars);
      && 1 <= |c.calls| <= 6
      && (forall k :: 0 <= k < |c.calls| ==> Stage(c.calls[k]) == k && c.calls[k].symbol == cfg.symbol)
      && (c.outcome.OrderPlaced? <==> c.calls[|c.calls| - 1].SubmitOrder?)
  {
  }

  /** The cooldown gate: the cycle ends right after the last-closed-position
      query, with no order, exactly when that position closed under 120
      seconds ago. */
  lemma CooldownGate(cfg: Config, ext: Collaborators, r: Responses, now: real, bars: seq<Bar>)
    ensures var c := JobSpec(cfg, ext, r, now, bars);
      (c.outcome == NoAction(RecentlyClosed) <==> r.lastClosedPosition.Some? && InCooldown(r.lastClosedPosition.value, now))
      && (c.outcome == NoAction(RecentlyClosed) ==> c.calls == [QueryLastClosedPosition(cfg.symbol)])
  {
  }

  /** A position closed exactly 120 seconds ago does not block: the cycle
      goes on to fetch the history. */
  lemma CooldownBoundary(cfg: Config, ext: Collaborators, r: Responses, bars: seq<Bar>, p: ClosedPosition)
    requires r.lastClosedPosition == Some(p)
    ensures var c := JobSpec(cfg, ext, r, (p.updatedTime as real) / 1000.0 + CooldownSeconds, bars);
      c.outcome != NoAction(RecentlyClosed) && c.calls[1] == QueryHistoricalData(cfg.symbol, cfg.interval, cfg.limit)
  {
  }

  /** The history gate: without history the cycle ends after the history
      query; no position, order or price query, no order. */
  lemma HistoryGate(cfg: Config, ext: Collaborators, r: Responses, now: real, bars: seq<Bar>)
    requires !(r.lastClosedPosition.Some? && InCooldown(r.lastClosedPosition.value, now))
    requires r.historicalData.None?
    ensures JobSpec(cfg, ext, r, now, bars) ==
      Cycle(NoAction(NoHistoricalData),
            [QueryLastClosedPosition(cfg.symbol), QueryHistoricalData(cfg.symbol, cfg.interval, cfg.limit)])
  {
  }

  /** A history pandas cannot label (empty, or records not seven wide)
      raises out of the cycle after the history query. */
  lemma MalformedHistoryRaises(cfg: Config, ext: Collaborators, r: Responses, now: real, bars: seq<Bar>)
    requires !(r.lastClosedPosition.Some? && InCooldown(r.lastClosedPosition.value, now))
    requires r.historicalData.Some? && !WellShaped(r.historicalData.value)
    ensures JobSpec(cfg, ext, r, now, bars) ==
      Cycle(Raised(ColumnMismatch),
            [QueryLastClosedPosition(cfg.symbol), QueryHistoricalData(cfg.symbol, cfg.interval, cfg.limit)])
  {
  }

  /** The five queries a cycle makes before it may submit an order. */
  function Queries(cfg: Config): seq<Call> {
    [QueryLastClosedPosition(cfg.symbol), QueryHistoricalData(cfg.symbol, cfg.interval, cfg.limit),
     QueryOpenPositions(cfg.symbol), QueryOpenOrders(cfg.symbol), QueryRealTimePrice(cfg.symbol)]
  }

  /** The exposure and price gates: an open position ends the cycle before
      open orders or the price are queried, an open order before the price
      is queried, a missing price before the signal; none of them sends an
      order. */
  lemma ExposureAndPriceGates(cfg: Config, ext: Collaborators, r: Responses, now: real, bars: seq<Bar>)
    requires ReachesFrame(r, now)
    ensures var c := JobSpec(cfg, ext, r, now, bars);
      && (|r.openPositions| > 0 ==> c == Cycle(NoAction(PositionOpen), Queries(cfg)[..3]))
      && (|r.openPositions| == 0 && |r.openOrders| > 0 ==> c == Cycle(NoAction(OrderOpen), Queries(cfg)[..4]))
      && (|r.openPositions| == 0 && |r.openOrders| == 0 && r.realTimePrice.None? ==>
            c == Cycle(NoAction(NoRealTimePrice), Queries(cfg)))
  {
  }

  /** An order goes out exactly when every gate passes and the strategy
      returns a trend. It is then the only order of the cycle, sent after the
      five queries with the configured symbol, quantity and leverage, the
      live price, the bracket computed for the trend, and side Buy exactly
      for a long trend. Without a trend the cycle ends after the price
      query. */
  lemma OrderIffAllGatesPass(cfg: Config, ext: Collaborators, r: Responses, now: real, bars: seq<Bar>)
    ensures var c := JobSpec(cfg, ext, r, now, bars);
      var table := IndicatorTable(bars);
      && (c.outcome.OrderPlaced? <==>
            && ReachesFrame(r, now)
            && |r.openPositions| == 0 && |r.openOrders| == 0
            && r.realTimePrice.Some?
            && ext.combineIndicatorsStrategy(table).Some?)
      && (c.outcome.OrderPlaced? ==>
            var trend := ext.combineIndicatorsStrategy(table).value;
            var price := r.realTimePrice.value;
            var b := ext.calculateDynamicRiskManagement(table, price, trend);
            && (c.outcome.side == Buy <==> trend == Long)
            && c.outcome == OrderPlaced(SideOf(trend), cfg.quantity, cfg.leverage, b.stopLoss, b.takeProfit, r.orderResult)
            && c.calls == Queries(cfg) +
                 [SubmitOrder(cfg.symbol, SideOf(trend), cfg.quantity, price, cfg.leverage, b.stopLoss, b.takeProfit)])
      && ((ReachesFrame(r, now) && |r.openPositions| == 0 && |r.openOrders| == 0 && r.realTimePrice.Some?
           && ext.combineIndicatorsStrategy(table).None?) ==>
          c == Cycle(NoAction(NoSignal), Queries(cfg)))
  {
  }

  /** No hidden state: a cycle's decision and calls are fixed by the
      exchange's answers and the clock, unless the history holds two
      different bars with the same timestamp (whose order the unstable sort
      leaves open). Two cycles with the same answers decide alike. */
  lemma JobDeterministic(cfg: Config, ext: Collaborators, r: Responses, now: real, b1: seq<Bar>, b2: seq<Bar>)
    requires Candidate(r, now, b1) && Candidate(r, now, b2)
    requires ReachesFrame(r, now) ==> TimestampsIdentify(ParseRows(r.historicalData.value))
    ensures JobSpec(cfg, ext, r, now, b1) == JobSpec(cfg, ext, r, now, b2)
  {
    if ReachesFrame(r, now) {
      PreparedUnique(r.historicalData.value, b1, b2);
    }
  }

  /** `__init__` raises when either API key is missing or empty. */
  datatype StartupError = MissingApiKeys

  /** A key Python treats as present: not `None` and not empty. */
  predicate KeyPresent(key: Option<string>) {
    key.Some? && key.value != ""
  }

  class TradingBot {
    const apiKey: string
    const apiSecret: string
    const dataFetcher: Gateway
    const riskManagement: RiskManagement
    const config: Config
    const collaborators: Collaborators

    constructor (apiKey: string, apiSecret: string, dataFetcher: Gateway, config: Config, collaborators: Collaborators)
      requires apiKey != "" && apiSecret != ""
      ensures this.apiKey == apiKey && this.apiSecret == apiSecret
      ensures this.dataFetcher == dataFetcher && this.config == config && this.collaborators == collaborators
      ensures fresh(riskManagement)
      ensures riskManagement.atrPeriod == 14
      ensures riskManagement.atrMultiplier == config.atrMultiplier && riskManagement.riskRatio == config.riskRatio
    {
      this.apiKey := apiKey;
      this.apiSecret := apiSecret;
      this.dataFetcher := dataFetcher;
      this.config := config;
      this.collaborators := collaborators;
      riskManagement := new RiskManagement(atrMultiplier := config.atrMultiplier, riskRatio := config.riskRatio);
    }

    /** One polling cycle. `now` is the wall clock in seconds; `bars` is the
        order the sort chose for the history. */
    method Job(now: real) returns (outcome: Outcome, ghost bars: seq<Bar>)
      modifies dataFetcher
      ensures Candidate(dataFetcher.responses, now, bars)
      ensures var c := JobSpec(config, collaborators, dataFetcher.responses, now, bars);
        outcome == c.outcome && dataFetcher.trace == old(dataFetcher.trace) + c.calls
    {
      bars := [];
      var symbol := config.symbol;
      var lastClosedPosition := dataFetcher.GetLastClosedPosition(symbol);
      if lastClosedPosition.Some? {
        var lastClosedTime := (lastClosedPosition.value.updatedTime as real) / 1000.0;
        var timeSinceLastClose := now - lastClosedTime;
        if timeSinceLastClose < CooldownSeconds {
          return NoAction(RecentlyClosed), bars;
        }
      }

      var historicalData := dataFetcher.GetHistoricalData(symbol, config.interval, config.limit);
      if historicalData.None? {
        return NoAction(NoHistoricalData), bars;
      }

      var prepared := PrepareDataframe(historicalData.value);
      if prepared.Err? {
        return Raised(prepared.error), bars;
      }
      var df := prepared.value;
      bars := df.bars;

      df.SetColumn("EMA_9", Defined(Indicators.Ema(Closes(df.bars), 9)));
      df.SetColumn("EMA_21", Defined(Indicators.Ema(Closes(df.bars), 21)));
      df.SetColumn("RSI", Indicators.Rsi(Closes(df.bars), 14));
      assert df.View() == IndicatorTable(bars);

      outcome := Trade(df);
    }

    /** The rest of `job` once the indicator columns are in `df`. */
    method Trade(df: Frame) returns (outcome: Outcome)
      modifies dataFetcher
      ensures var c := TradeSpec(config, collaborators, dataFetcher.responses, df.View());
        outcome == c.outcome && dataFetcher.trace == old(dataFetcher.trace) + c.calls
    {
      var symbol := config.symbol;
      var openPositions := dataFetcher.GetOpenPositions(symbol);
      if |openPositions| > 0 {
        return NoAction(PositionOpen);
      }

      var openOrders := dataFetcher.GetOpenOrders(symbol);
      if |openOrders| > 0 {
        return NoAction(OrderOpen);
      }

      var currentPrice := dataFetcher.GetRealTimePrice(symbol);
      if currentPrice.None? {
        return NoAction(NoRealTimePrice);
      }

      var trend := collaborators.combineIndicatorsStrategy(df.View());
      if trend.None? {
        return NoAction(NoSignal);
      }
      var bracket := collaborators.calculateDynamicRiskManagement(df.View(), currentPrice.value, trend.value);
      var side := if trend.value == Long then Buy else Sell;
      var orderResult := dataFetcher.PlaceOrder(symbol, side, config.quantity, currentPrice.value,
                                                config.leverage, bracket.stopLoss, bracket.takeProfit);
      outcome := OrderPlaced(side, config.quantity, config.leverage, bracket.stopLoss, bracket.takeProfit, orderResult);
    }
  }

  /** `TradingBot()`: refuses to start without both API keys. */
  method NewTradingBot(apiKey: Option<string>, apiSecret: Option<string>, dataFetcher: Gateway,
                       config: Config, collaborators: Collaborators)
    returns (r: Result<TradingBot, StartupError>)
    ensures r.Err? <==> !KeyPresent(apiKey) || !KeyPresent(apiSecret)
    ensures r.Ok? ==> fresh(r.value) && r.value.dataFetcher == dataFetcher && r.value.config == config
  {
    if !KeyPresent(apiKey) || !KeyPresent(apiSecret) {
      return Err(MissingApiKeys);
    }
    var bot := new TradingBot(apiKey.value, apiSecret.value, dataFetcher, config, collaborators);
    return Ok(bot);
  }
}
