# EMA/RSI scalping bot — decision pipeline in Dafny

This project models the decision pipeline of a one-symbol crypto trading bot
(Bybit, EMA/RSI scalping) and proves properties of it. Each polling cycle
(`TradingBot.job`) does the following:

- it asks the exchange when the last position closed, and stops if that was under 120 seconds ago;
- it fetches the kline history and turns it into a DataFrame sorted by timestamp;
- it adds EMA 9, EMA 21 and RSI 14 columns;
- it stops if a position or an order is already open, or if no live price comes back;
- it asks the strategy for a trend, sizes a stop-loss/take-profit bracket, and sends one order carrying that bracket.

Values are mathematical reals. A NaN entry of a pandas column is `None`.
The exchange is an object whose answers are given in advance and which
records every call made to it.

Files and modules, one per source file plus shared helpers:

- `wrappers.dfy` (`Wrappers`): `Option`, `Result`.
- `series.dfy` (`Series`): sums, means, extremes, and pandas `rolling(window).mean()`.
- `market.dfy` (`Market`): the bar record, the trend, and the `Frame` class that stands for the pandas DataFrame. The class keeps the rows and the columns added to it.
- `indicators.dfy` (`Indicators`): `indicators.py`.
- `risk_management.dfy` (`Risk`): `risk_management.py`.
- `strategies.dfy` (`Strategies`): `strategies.py`.
- `trading_bot.dfy` (`Bot`): `trading_bot.py`.

How the code shapes the model:

- `job` is a method on the `TradingBot` class. It is proved equal to a pure function, `JobSpec`, of the exchange's answers, the clock and the bars the sort produced. The gate properties are lemmas about `JobSpec`. `job` is split into `Job` and `Trade` at the point where the indicator columns exist.
- `prepare_dataframe` sorts with pandas' default, unstable sort. The model therefore promises only "sorted by timestamp and a permutation of the records". `Job` and `EmaRsiStrategy` return, as a ghost value, the order the sort chose.
- pandas' sort is deterministic, but the model does not know which order it gives to bars that share a timestamp. `PreparedUnique` and `JobDeterministic` show that the order, and with it the cycle, is fixed by the records whenever no two different bars share a timestamp.

Behaviour of the code worth knowing, which the model reproduces:

- The code has no order timeout and no auto-cancel, and keeps no state between cycles.
- The message printed at the cooldown (trading_bot.py:55) speaks of three minutes, but the threshold is 120 seconds. A position closed exactly 120 seconds ago does not block.
- RSI with a zero average loss is 100 when the window had any gain, because pandas divides to +inf. It is NaN only when prices did not move at all.
- Bars with the same timestamp are sorted but not removed.
- Nothing checks that the bracket prices are positive.

## Model

| member | source | states |
|---|---|---|
| `Series.RollingMean` | risk_management.py:20 | `rolling(window).mean()` has one entry per row. An entry is NaN exactly in the first `window - 1` rows, and after that it is the mean of the `window` values ending at that row. |
| `Indicators.Alpha` | indicators.py:9 | The smoothing factor `2 / (span + 1)` lies in (0, 1] for every span of at least 1. |
| `Indicators.EmaWith` | indicators.py:9 | The EMA column is as long as the close column. |
| `Indicators.Ema` | indicators.py:9 | `calculate_ema` gives one value per close. |
| `Indicators.EmaPrefix` | indicators.py:9 | The EMA of a prefix is the prefix of the EMA: no value depends on later closes. |
| `Indicators.EmaRecurrence` | indicators.py:9 | `e[0] = close[0]` and `e[i] = e[i-1] + alpha * (close[i] - e[i-1])`. This is pandas `ewm(adjust=False)`. |
| `Indicators.EmaBounded` | indicators.py:9 | If every close lies in [lo, hi], every EMA value does too. |
| `Indicators.EmaWithinRunningRange` | indicators.py:9 | Each `EMA[i]` lies between the minimum and the maximum of `close[0..i]`. |
| `Indicators.EmaOfConstant` | indicators.py:9 | A constant close series has a constant EMA equal to it. |
| `Indicators.Gains` | indicators.py:14-15 | The gain column has one entry per row, and every entry is at least 0. |
| `Indicators.Losses` | indicators.py:14-16 | The loss column has one entry per row, and every entry is at least 0. |
| `Indicators.GainLossSplit` | indicators.py:14-16 | At most one of gain and loss is non-zero in a row. Gain minus loss is the change from the previous close. In row 0 both are 0, because the NaN difference fails the `where` condition. |
| `Indicators.RsiFrom` | indicators.py:17-18 | RSI is NaN exactly when the average gain and the average loss are both 0. With a positive average loss it lies in [0, 100). With zero average loss and a positive average gain it is 100. |
| `Indicators.RsiIsGainShare` | indicators.py:17-18 | With a positive average loss, `100 - 100/(1 + g/l)` equals `100 * g / (g + l)`, an independent form of the same value. |
| `Indicators.Rsi` | indicators.py:12-18 | `calculate_rsi` gives one value per row, and it is NaN in the first `period - 1` rows (the rolling-window warm-up). |
| `Indicators.RsiAt` | indicators.py:15-18 | After the warm-up, RSI at row `i` is computed from the mean gain and the mean loss of the `period` rows ending at `i`. |
| `Indicators.RsiInRange` | indicators.py:15-18 | Every defined RSI value lies in [0, 100]. It is below 100 exactly when the window's mean loss is positive. |
| `Risk.PreviousCloseColumn` | risk_management.py:15 | `previous_close` is NaN in row 0 and is the prior row's close after that. |
| `Risk.TrueRange` | risk_management.py:16-19 | The true range is the maximum of `high - low`, `abs(high - prevClose)` and `abs(low - prevClose)`. It is at least each of them and equal to one of them. In row 0 the gaps are NaN and skipped, so it is `high - low`. |
| `Risk.TrueRanges` | risk_management.py:19 | The `tr` column holds the true range of every row. |
| `Risk.AtrDefinedIff` | risk_management.py:20 | ATR is NaN exactly when there are fewer bars than the period. Otherwise it is the mean of the last `period` true ranges. |
| `Risk.TrueRangeNonNegative` | risk_management.py:16-19 | Every true range after row 0 is non-negative. Row 0 is non-negative when its low is not above its high. |
| `Risk.AtrNonNegative` | risk_management.py:15-20 | A defined ATR is non-negative unless its window starts at a first bar whose high is below its low. |
| `Risk.AtrWithinWindow` | risk_management.py:19-20 | A defined ATR lies between the smallest and the largest true range of its window. |
| `Risk.BracketOrdering` | risk_management.py:26-33 | With positive multiplier, ATR and ratio, a long bracket has stop < price < target and a short bracket has target < price < stop. |
| `Risk.BracketDistances` | risk_management.py:26-33 | In both directions the target is `ratio` times as far from the price as the stop, on the opposite side. The stop is `multiplier * atr` away from the price. |
| `Risk.BracketExample` | risk_management.py:26-30 | A long trade at price 100 with ATR 2, multiplier 1.5 and ratio 1.5 gets stop 97 and target 104.5. |
| `Risk.SizeBracket` | risk_management.py:26-37 | A trend other than `'long'` or `'short'` raises `ValueError`, whatever the ATR. A NaN ATR gives a NaN bracket. Otherwise the result is the bracket for the named direction. |
| `Risk.SizeBracketOfTrend` | risk_management.py:28-33 | A trend produced by a strategy is always accepted and is sized in its own direction. |
| `Risk.RiskManagement.constructor` | risk_management.py:5-8 | Stores the ATR period (default 14), the multiplier (default 1.5) and the reward ratio (default 1.5). |
| `Risk.AtrOf` | risk_management.py:15-20 | `calculate_atr` raises `IndexError` exactly when the frame has no rows. Otherwise its ATR is defined exactly when there are at least `period` rows. |
| `Risk.RiskFor` | risk_management.py:23-37 | With no rows, `calculate_risk_management` raises the ATR's `IndexError`, whatever the trend. Otherwise it sizes the bracket from the ATR, or rejects the trend. |
| `Risk.RiskManagement.CalculateAtr` | risk_management.py:10-21 | Adds `previous_close`, `tr1`, `tr2`, `tr3` and `tr` to the caller's frame. The rows and all other columns are unchanged. Returns the ATR of the last row, or raises `IndexError` on a frame without rows. |
| `Risk.RiskManagement.CalculateRiskManagement` | risk_management.py:23-37 | Adds the ATR columns to the frame first. Then it raises `IndexError` on a frame without rows, and otherwise returns the sized bracket or the invalid-trend error. |
| `Strategies.ParseRowRoundTrip` | strategies.py:12-13 | Each record maps by position onto timestamp, open, high, low, close, volume and turnover. Reading the bar back in column order gives the record again, and the reverse holds too. |
| `Strategies.ParseRows` | strategies.py:12-13 | One bar per record, in the order received. |
| `Strategies.SortByTimestamp` | strategies.py:17 | Sorts the rows in place. The result is ascending by timestamp and a permutation of the input. |
| `Strategies.PrepareDataframe` | strategies.py:10-19 | Raises `ValueError` exactly when the history is empty or its records are not all seven cells wide. Otherwise it returns a fresh frame with no added columns, whose bars are the records, same rows and same count, sorted by timestamp. |
| `Strategies.SortedArrangementUnique` | strategies.py:17 | Two sorted arrangements of the same bars are equal when no two different bars share a timestamp. |
| `Strategies.PreparedUnique` | strategies.py:12-17 | The prepared frame is determined by the history when no two different bars in it share a timestamp. |
| `Strategies.IndicatorColumns` | strategies.py:26-30 | The EMA 9, EMA 21 and RSI 14 columns are each aligned with the rows. |
| `Strategies.EmaRsiDecision` | strategies.py:41-46 | Returns `'short'` exactly when `ema9 > ema21` and `rsi > 50`, and `'long'` exactly when `ema9 < ema21` and `rsi < 50`. In every other case it returns `None`: equal EMAs, RSI equal to 50, any NaN input, or mixed conditions. The two directions never both hold. |
| `Strategies.EmaRsiSignalReadsLastRow` | strategies.py:33-35 | Only the last row's EMA 9, EMA 21 and RSI affect the decision. |
| `Strategies.EmaRsiSignalNeedsRsi` | strategies.py:30-46 | With fewer than 14 bars the RSI is still NaN, so the strategy never returns a trend. |
| `Strategies.EmaRsiStrategy` | strategies.py:21-46 | Raises exactly when preparation raises. Otherwise it returns the decision rule applied to the last row of the prepared, sorted bars. |
| `Market.Frame.SetColumn` | trading_bot.py:66-68 | `df[name] = values` replaces or adds that one column. The rows and all other columns stay as they were. |
| `Bot.Gateway.GetLastClosedPosition` | trading_bot.py:48 | Records the query and returns the exchange's answer. |
| `Bot.Gateway.GetHistoricalData` | trading_bot.py:58 | Records the query with symbol, interval and limit, and returns the answer. |
| `Bot.Gateway.GetOpenPositions` | trading_bot.py:97 | Records the query and returns the answer. |
| `Bot.Gateway.GetOpenOrders` | trading_bot.py:102 | Records the query and returns the answer. |
| `Bot.Gateway.GetRealTimePrice` | trading_bot.py:107 | Records the query and returns the answer. |
| `Bot.Gateway.PlaceOrder` | trading_bot.py:124-132 | Records the order with all its arguments, and returns whether the exchange returned a receipt. |
| `Bot.SideOf` | trading_bot.py:121 | The side is `Buy` exactly for a long trend, and `Sell` otherwise. |
| `Bot.GatesInOrder` | trading_bot.py:47-137 | The calls of a cycle follow the fixed gate order. Each call happens at most once and all use the configured symbol. A cycle that stops at a gate makes no later call. At most one order is sent, and only as the last call. |
| `Bot.CooldownGate` | trading_bot.py:48-56 | The cycle ends right after the last-closed-position query, with no order, exactly when that position's `updatedTime`, converted from ms to s, is under 120 s before now. |
| `Bot.CooldownBoundary` | trading_bot.py:54 | A position closed exactly 120 s ago does not block; the history is fetched next. |
| `Bot.HistoryGate` | trading_bot.py:58-61 | With no history the cycle ends after the history query. No position, order or price query follows, and no order is sent. |
| `Bot.MalformedHistoryRaises` | trading_bot.py:58-63 | An empty history, or records of which the widest is not seven cells, make the cycle raise after the history query. |
| `Bot.ExposureAndPriceGates` | trading_bot.py:97-110 | An open position ends the cycle before open orders or the price are queried. An open order ends it before the price is queried. A missing price ends it before the signal. None of these sends an order. |
| `Bot.OrderIffAllGatesPass` | trading_bot.py:114-132 | An order is sent exactly when every gate passes and the strategy returns a trend. It is sent after the five queries, with the configured symbol, quantity and leverage, the live price and the computed stop and target. Its side is Buy exactly for a long trend. With no trend the cycle ends with no order. |
| `Bot.JobDeterministic` | trading_bot.py:47-139 | When no two different bars of the history share a timestamp, two cycles given the same answers and the same clock make the same decision and the same calls. |
| `Bot.TradingBot.constructor` | trading_bot.py:29-42 | Stores the gateway and the settings. Builds the risk manager with ATR period 14 and the configured multiplier and ratio. |
| `Bot.TradingBot.Job` | trading_bot.py:47-73 | One cycle. The outcome and the calls appended to the gateway's trace are those of `JobSpec` for the bars the sort produced. Those bars are the prepared history when the cycle got that far, and empty otherwise. |
| `Bot.TradingBot.Trade` | trading_bot.py:97-139 | The part of `job` after the indicator columns are written. It matches `TradeSpec` on the frame's contents. |
| `Bot.NewTradingBot` | trading_bot.py:19-23 | Construction fails exactly when either API key is missing or empty. Otherwise it gives a fresh bot with the given gateway and settings. |

## Left out

- The `run` scheduler loop and its sleep (trading_bot.py:141-146) are not modelled. It is an endless timed loop whose only per-step logic is `job`. Cycles share no state, so each is one `job`.
- Reading the `.env` file, parsing the environment values (trading_bot.py:17-42), logging setup (trading_bot.py:45) and every `print` are not modelled. The settings are a `Config` value.
- The `BybitDemoSession` exchange client (trading_bot.py:25) is not modelled. It is a network client whose code is not part of this model. It is replaced by `Gateway`, whose answers are inputs. Network exceptions inside its calls are not modelled.
- `combine_indicators_strategy` and `calculate_dynamic_risk_management` (trading_bot.py:114, 116) are not defined in the code at hand. They are the function-valued parameters in `Collaborators`, and the model assumes they do not change the frame.
- The MACD, stochastic and Bollinger columns (trading_bot.py:69-71) are not modelled. `indicators.py` does not define them, and their values are only printed.
- The `strategy` and `indicators` fields of the bot are not modelled. They are stateless helpers, and their functions are called directly.
- The `enable_ema_rsi_strategy` switch (trading_bot.py:42) is stored in `Config` but has no effect, because `job` never reads it.
- IEEE-754 rounding is not modelled. The only inf/NaN behaviour modelled is what decides a branch: NaN entries, and RSI division by zero.
- String timestamps and `astype(float)` conversion are not modelled. Every cell is modelled as a real, and `updatedTime` as an integer number of milliseconds.
- Strategies.PrepareDataframe: refuses records of unequal width. pandas would pad short records with NaN when the widest record has seven cells.
- Strategies.EmaRsiStrategy: like `PrepareDataframe`, it refuses records of unequal width.
- Bot.MalformedHistoryRaises: it also covers ragged records whose widest has seven cells. pandas pads those with NaN and the cycle goes on, but the model raises, as `PrepareDataframe` does.
- Bot.JobDeterministic: holds only when no two different bars share a timestamp. pandas' sort is deterministic, so the program decides alike for every history, but the model leaves the order of tied bars open because the order pandas' quicksort gives them is not modelled.
- Indicators.Ema: the span must be at least 1, as pandas itself requires.
