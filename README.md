# QuantBack backtest engine in Dafny

This project models the backtest engine of QuantBack's `index.ts`. The engine
takes a series of OHLC bars and the name of a trading strategy. It turns the
closes (and, for the breakout strategy, the highs and lows) into one signal
per bar: +1 buy, -1 sell, 0 hold. It then simulates a single-unit account that
is either flat or long and compounds its equity while long. From that it
reports total return, an annualised Sharpe ratio, maximum drawdown, win rate
and the equity curve, with each point labelled by its bar's date or by
`Day i`.

Modules, one file each:

- `Optional` (`optional.dfy`): `Option` and `Result`.
- `Stats` (`stats.dfy`): left-to-right sums, means, squared deviations and
  population variance. It also holds `IsSqrt`, the property the engine relies
  on from the host's square root.
- `Indicators` (`indicators.dfy`): the rolling windows `SMA`, `StdDev`,
  `Highest` and `Lowest`. The not-a-number warm-up entries are `None`.
- `Strategies` (`strategies.dfy`): momentum (close against a 10-bar average),
  mean reversion (close against 20-bar bands two standard deviations wide) and
  breakout (close against the 20 previous highs and lows).
- `Simulator` (`simulator.dfy`): `calculateMetrics`, modelled in two layers.
  - The imperative layer is the methods `SimulateBars`, `MaxDrawdownOf` and
    `CalculateMetrics`. Their loops are proved against the recursive
    specification functions `Run` and `MaxDrawdown`.
  - The specification layer is those functions and the lemmas proved about
    them.
- `Backtest` (`backtest.dfy`): the request handler's rules. These are data
  validation, the strategy switch, signal generation, and the labelled
  equity curve.

Numbers are Dafny `real`s. A comparison with a warm-up entry is false, as a
comparison with NaN is. `Math.sqrt` is a parameter `sqrt` that every member
requires to satisfy `IsSqrt`: for every x ≥ 0, `sqrt(x)` is non-negative and
squares back to x.

In `calculateMetrics`, the win test compares `equity` with the last point of
the equity curve. The curve is seeded with `equity`, and every bar appends
the freshly updated `equity`. So the two are always equal, and no closed
trade is ever counted as a win. `SimulateBars` carries this fact as a loop
invariant, and `Run` as a postcondition. The reported win rate is therefore
always 0. The model keeps this behaviour as written.

The engine only replaces a not-a-number Sharpe ratio with 0 (`0/0`: no
returns, or zero mean over zero deviation). Non-zero returns that are all
equal give a non-zero mean over a zero deviation. JavaScript evaluates that
to ±Infinity and the code reports it unchanged. An account that records at
least one zero return never hits this case, and
`Simulator.SharpeInfiniteWhenConstant` shows the case exists.
`Simulator.Ratio` therefore has an `Infinite` case. `Backtest.SharpeFinite`
proves that it never arises from a request: every strategy holds on bar 1, so
the first recorded return is always 0.

## Model

| member | source | states |
|---|---|---|
| Indicators.Window | index.ts:24 | The slice for bar i has exactly `period` values: those of bars i-period+1 .. i, in order. |
| Indicators.MaxOf | index.ts:57 | The maximum of a non-empty window is one of its values, and no value exceeds it. |
| Indicators.MinOf | index.ts:71 | The minimum of a non-empty window is one of its values, and no value is below it. |
| Indicators.SMA | index.ts:18-29 | Same length as the input. Entry i is undefined exactly when i < period-1. Otherwise it is the mean of the window ending at i. |
| Indicators.StdDev | index.ts:32-47 | Same length as the input and undefined during the same warm-up. Otherwise it is non-negative and its square is the population variance (divided by `period`) of the window about its SMA. |
| Indicators.Highest | index.ts:50-61 | Same length as the input and undefined during warm-up. Otherwise it is a value of the window ending at i and no value of that window exceeds it. |
| Indicators.Lowest | index.ts:64-75 | Same length as the input and undefined during warm-up. Otherwise it is a value of the window ending at i and no value of that window is below it. |
| Indicators.SmaWithinExtremes | index.ts:18-75 | A defined SMA lies between the same window's lowest and highest values. |
| Indicators.ConstantWindow | index.ts:18-47 | On a window of equal values c, the SMA is c and the standard deviation is 0. |
| Indicators.StdDevZero | index.ts:32-47 | A defined standard deviation is 0 if and only if every value of its window equals the window's SMA. |
| Stats.PopulationVarianceZero | index.ts:42 | The population variance is never negative, and it is 0 if and only if every value equals the mean. |
| Stats.MeanWithin | index.ts:25 | The mean of values between lo and hi lies between lo and hi. |
| Strategies.Momentum | index.ts:78-92 | One signal per close, each -1, 0 or 1. A signal is 0 exactly during the 9-bar warm-up. After it, the signal is 1 if and only if the close is above the mean of the last 10 closes, and -1 otherwise. |
| Strategies.MeanReversion | index.ts:95-117 | One signal per close, each -1, 0 or 1, and 0 during the 19-bar warm-up. After it, the signal is 1 if and only if the close is below the lower band, and -1 if and only if it is above the upper band. |
| Strategies.BandsOrdered | index.ts:104-105 | Lower band ≤ window mean ≤ upper band, so a buy and a sell can never both apply. |
| Strategies.Breakout | index.ts:120-137 | One signal per bar, each -1, 0 or 1. The signal is 1 if and only if i ≥ 20 and the close exceeds every high of the 20 previous bars. It is -1 if and only if i ≥ 20, that fails, and the close is below every low of the 20 previous bars. All earlier bars, including bar 19 whose prior window is undefined, get 0. |
| Strategies.AbovePriorHighest | index.ts:128 | Beating the previous bar's highest high means beating every high of the `period` bars before i, and conversely. |
| Strategies.BelowPriorLowest | index.ts:130 | Falling below the previous bar's lowest low means falling below every low of the `period` bars before i, and conversely. |
| Strategies.MomentumRising | index.ts:78-92 | On a strictly rising series every bar after the warm-up is a buy. |
| Strategies.MeanReversionConstant | index.ts:95-117 | On a constant series mean reversion never signals. |
| Simulator.Run | index.ts:140-169 | After n bars the curve has n points starting at 10000, there are n-1 returns, the position is 0 or 1, equity equals the last curve point, no win is ever counted, and trades ≤ n-1. |
| Simulator.SimulateBars | index.ts:140-169 | The bar loop ends in exactly the state `Run` specifies, keeping the invariant that equity is the last curve point, so the win count stays 0. |
| Simulator.RunningPeak | index.ts:180-183 | The running peak after point k is at least the first point and at least every point up to k. |
| Simulator.MaxDrawdown | index.ts:179-185 | The maximum drawdown is non-negative and at least the drawdown of every point. |
| Simulator.MaxDrawdownOf | index.ts:179-185 | The drawdown loop returns `MaxDrawdown` of the whole curve. |
| Simulator.SharpeRatio | index.ts:174-177 | An infinite ratio arises only from non-empty returns that all equal a non-zero mean, with the sign of that mean. |
| Simulator.CalculateMetrics | index.ts:140-196 | The curve has one point per close and starts at 10000. The total return is the percentage gain of the final equity over 10000. The Sharpe ratio is that of the recorded returns. The maximum drawdown is non-negative and equals `MaxDrawdown`. The win rate is 0. |
| Simulator.RunPrefix | index.ts:148-169 | Later bars only append: the first k curve points and first k-1 returns of any longer run are those of the run over k bars. |
| Simulator.PositionTransition | index.ts:152-158 | On bar i a buy signal leaves the account long and a sell signal leaves it flat, whatever the position before; any other signal keeps it. The trade count grows by one exactly when a sell closes a long position, and the win count never changes. |
| Simulator.FlatFirstBar | index.ts:148-166 | Without a buy on bar 1 the first recorded return is 0. |
| Simulator.BarOutcome | index.ts:148-168 | A bar that ends flat leaves equity unchanged and records 0. A bar that ends long compounds equity by its close-to-close return and records that return. |
| Simulator.NoBuyStaysFlat | index.ts:148-168 | Without a buy signal on bars 1 .. n-1 (bar 0's signal is never read) the account stays flat: every curve point is 10000 and every return is 0. |
| Simulator.NoBuyMetrics | index.ts:171-191 | A run without a buy on any bar from 1 on reports a Sharpe ratio of 0, no drawdown and final equity 10000. |
| Simulator.RisingPricesRaiseEquity | index.ts:148-168 | On strictly rising positive closes the equity curve never falls and ends at or above 10000, whatever the signals. |
| Simulator.RisingPricesNoDrawdown | index.ts:179-185 | On strictly rising positive closes the maximum drawdown is 0. |
| Simulator.RunningPeakAttained | index.ts:180-183 | The running peak is a point of the curve and never decreases. |
| Simulator.DrawdownBounds | index.ts:182 | Every drawdown is non-negative, and below 100% while equity is positive. |
| Simulator.MaxDrawdownAttained | index.ts:179-185 | The maximum drawdown is 0 or the drawdown of some point. |
| Simulator.NonDecreasingNoDrawdown | index.ts:179-185 | A curve that never falls has maximum drawdown 0. |
| Simulator.SharpeFiniteWhenFirstFlat | index.ts:174-191 | If the first return is 0 the Sharpe ratio is finite. |
| Simulator.SharpeZeroWhenAllFlat | index.ts:174-191 | All-zero returns give a Sharpe ratio of exactly 0. |
| Simulator.SharpeInfiniteWhenConstant | index.ts:174-191 | Returns all equal to a non-zero c give an infinite ratio with the sign of c. |
| Backtest.ParseStrategy | index.ts:220-232 | Only "momentum", "meanReversion" and "breakout" are recognised, each as the strategy of that name. Every other identifier is rejected. |
| Backtest.ParseStrategyName | index.ts:220-232 | Parsing a strategy's identifier gives back that strategy. |
| Backtest.SelectStrategy | index.ts:220-232 | A strategy is selected exactly when an identifier is present and recognised, and the selected strategy is the one that identifier names. |
| Backtest.Closes | index.ts:213 | One close per bar, in order. |
| Backtest.Highs | index.ts:214 | One high per bar, in order. |
| Backtest.Lows | index.ts:215 | One low per bar, in order. |
| Backtest.Dates | index.ts:216 | One date per bar, in order. |
| Backtest.Signals | index.ts:218-232 | Each strategy gives one signal per bar, each -1, 0 or 1, and all of them are 0 during the first nine bars. |
| Backtest.DecimalString | index.ts:240 | The rendering of i is non-empty, all digits, without a leading zero, and denotes i. |
| Backtest.Label | index.ts:240 | A non-empty date is the label. Otherwise the label is "Day " followed by the decimal rendering of i (non-empty, no leading zero, denoting i). |
| Backtest.FormatCurve | index.ts:239-242 | One point per equity value, in order, each with its equity and its bar's label, and no label is empty. |
| Backtest.FirstReturnFlat | index.ts:218-236 | Under every strategy the first recorded return is 0. |
| Backtest.MomentumPosition | index.ts:78-92 | Under momentum, from bar 9 on, the account is long after bar i if and only if bar i's close is above the mean of the last 10 closes, so a long position is closed on the first bar at or below that mean. |
| Backtest.SharpeFinite | index.ts:171-191 | Under every strategy the reported Sharpe ratio is finite. |
| Backtest.RunBacktest | index.ts:206-242 | Missing or empty data is rejected with "Invalid data format" before the strategy is looked at. An unknown or missing strategy is then rejected with "Invalid strategy". Otherwise the report has one labelled point per bar starting at 10000, the total return of the run, a finite Sharpe ratio, a non-negative maximum drawdown and a win rate of 0. |
| Backtest.ScenarioFirstMean | index.ts:18-29 | The 10-bar average of the reference closes at bar 9 is 106. |
| Backtest.ScenarioSecondMean | index.ts:18-29 | The 10-bar average of the reference closes at bar 10 is 107.5. |
| Backtest.MomentumScenarioSignals | index.ts:78-92 | On the reference closes 100, 102, 104, 103, 105, 107, 109, 108, 110, 112, 115, momentum gives nine zeros and then two buys. |
| Backtest.MomentumScenarioEquity | index.ts:140-169 | On the reference closes the momentum run ends at 10000 × 115/110. |

## Left out

- The HTTP server, CORS headers, request and response JSON, the 400 error response, and console logging are I/O and transport. The handler is modelled from the parsed request to a `Result`.
- Converting fields with `parseFloat(String(...))` is a JavaScript library call. Bars carry already-parsed reals, so a NaN produced by a bad field is not modelled.
- Floating point is left out: rounding, NaN and Infinity propagation, and `Math.sqrt(252)` as a float. Reals are exact. The only not-a-number values modelled are the warm-up entries (`None`) and the Sharpe ratio cases handled in `Simulator.SharpeRatio`.
- `Math.sqrt` is a parameter required to satisfy `IsSqrt`. Its implementation is not part of this model.
- Simulator.CalculateMetrics: requires every close used as a divisor to be non-zero. Division by a zero close, which JavaScript turns into Infinity or NaN, is not modelled.
- Backtest.RunBacktest: when the data is valid and the strategy is recognised, requires every close used as a divisor to be non-zero. Rejected requests carry no such requirement. A successful run over a zero close, where JavaScript produces Infinity or NaN, is not modelled.
- Simulator.CalculateMetrics: requires one signal per close. The three strategies always produce one, and an out-of-range `signals[i]` (undefined in JavaScript) is not modelled.
- Backtest.RunBacktest: the data check accepts only a present sequence of bars. "Not an array" and "missing" are both `None`. A missing date is the empty string, which the label rule treats in the same way.
- The React front end (`src/*.tsx`: strategy selector, file uploader and CSV splitting, metrics display, chart, download) is UI and I/O and is not part of this model.
