# stock_api_v2 backtesting core in Dafny

This project models the backtesting engine of `stock_api_v2` and proves properties of the model. It follows the engine's six services:

- **TechnicalAnalysis** (`technical_analysis.dfy`) — the indicator engine.
  - MACD: the line is the fast EMA of the closes minus the slow EMA. The signal line is an EMA of the MACD line, and the histogram is line minus signal. Input shorter than the slow period is an error.
  - KDJ: RSV is computed over a trailing window of `min(i + 1, 9)` bars, dividing by 1 when the high–low range is zero. K and D start at 50 and then follow the 2/3–1/3 recurrence, and J = 3K − 2D.
  - The recurrence is written twice: once as a method that fills two arrays in place, once as the functions it is proved against.
- **SignalDetector** (`signal_detector.dfy`) — per-bar buy and sell rules.
  - Rules: MACD histogram zero-crossing, MACD two-bar peak, and KDJ below or above a threshold.
  - Undefined indicator values are `Option`.
  - A loop produces the two 0/1 signal lists.
  - `get_current_signal` resolves the last bar into BUY, SELL or HOLD, together with its reasoning.
- **TradingSimulator** (`trading_simulator.dfy`) — the paper-trading state machine.
  - It holds one position at a time.
  - An order placed on the signal bar is filled at the next bar's open.
  - Commission is 0.1 % of each trade.
  - A position still open at the end is sold at the last close.
  - The trade loop is an imperative method, proved equal to a step function whose invariants carry the log's properties. Those properties are alternation, fill timing, traceability to signals, money bookkeeping, and buy/sell pairing.
  - Statistics and the trading summary are computed from the rounded log.
- **MarketScanner** (`market_scanner.dfy`) — the scan orchestrator, as a class whose pacing fields are updated by `AdjustRateLimiting`.
  - A per-symbol retry loop with a throttling classifier.
  - A batch fold that counts successes and failures.
  - Exclude rules with the "summary value if truthy, else statistics value" lookup.
  - Stable multi-key sorting, with `desc` negating numeric keys.
  - Top-N truncation.
- **StockFetcher** (`stock_fetcher.dfy`) — the symbol universe.
  - Market-cap banding and the record of a checked stock.
  - The parse of the pipe-delimited NASDAQ listing.
  - The shape check of the cached database.
  - Symbol lists per category, and the de-duplicated union of several categories, order-preserving.
- **Requests** (`requests.dfy`) — the request validators: membership and normalisation of operators, sort orders, indicators, periods, intervals, market-cap tags and symbols, plus the numeric field bounds.

Three helper modules provide Python built-ins on exact values:

- `Wrappers`: `Option`, `Result`, and a `Collect` over optional results.
- `Strings`: ASCII `lower`/`upper`, `strip`, `split`/`join`, substring test.
- `Numeric`: `round` as half-to-even on reals, `sum`, `min`, `max`.

Numbers are exact `real`s. Dates are integer day numbers. The EMA (pandas `ewm(span).mean()`) is a function parameter, and the model relies only on it returning one value per input value.

## Model

| member | source | states |
|---|---|---|
| TechnicalAnalysis.CalculateMacd | app/services/technical_analysis.py:21-73 | Error exactly for empty input or fewer bars than the slow period; otherwise line = fast EMA − slow EMA of the closes at every index, signal = EMA of the line, histogram = line − signal, all as long as the input |
| TechnicalAnalysis.HistogramSign | app/services/technical_analysis.py:52-58 | The histogram is positive (negative) exactly where the MACD line is above (below) its signal line |
| TechnicalAnalysis.WindowStart | app/services/technical_analysis.py:103-104 | The RSV window ending at bar i holds min(i + 1, k) bars and starts at or before i |
| TechnicalAnalysis.StochasticBounded | app/services/technical_analysis.py:106-110 | A close between the window's lowest low and highest high gives an RSV between 0 and 100 |
| TechnicalAnalysis.FlatRangeStochastic | app/services/technical_analysis.py:106-110 | A zero high–low range divides by 1 instead of 0 |
| TechnicalAnalysis.RsvBounded | app/services/technical_analysis.py:103-110 | For bars whose close lies between low and high, every RSV lies in [0, 100] |
| TechnicalAnalysis.Smooth | app/services/technical_analysis.py:112-128 | K, D and J are index-aligned with RSV, K and D are seeded with 50, and J = 3K − 2D at every index |
| TechnicalAnalysis.SmoothRecurrence | app/services/technical_analysis.py:122-125 | After the seed, K[i] = 2/3·K[i−1] + 1/3·RSV[i] and D[i] = 2/3·D[i−1] + 1/3·K[i] |
| TechnicalAnalysis.KSeries | app/services/technical_analysis.py:116-125 | One K per RSV value: 50 at the first bar, then two thirds of the previous K plus one third of that bar's RSV |
| TechnicalAnalysis.DSeries | app/services/technical_analysis.py:116-125 | One D per RSV value: 50 at the first bar, then two thirds of the previous D plus one third of that bar's K |
| TechnicalAnalysis.SmoothInPlace | app/services/technical_analysis.py:112-125 | The in-place array loop that writes K and D yields exactly the K and D series of the recurrence |
| TechnicalAnalysis.SmoothingBounded | app/services/technical_analysis.py:116-125 | With RSV in [0, 100], every K and D stays in [0, 100] (a convex combination of values in range) |
| TechnicalAnalysis.SmoothBounded | app/services/technical_analysis.py:112-128 | With RSV in [0, 100], K and D are in [0, 100] and J in [−200, 300] |
| TechnicalAnalysis.KdjOf | app/services/technical_analysis.py:75-143 | Error exactly for empty input or fewer bars than k_period; otherwise K, D, J are the smoothing of the RSV series, one value per bar |
| TechnicalAnalysis.CalculateKdj | app/services/technical_analysis.py:75-143 | The imperative KDJ computation returns the same result as `KdjOf` |
| TechnicalAnalysis.KdjBounded | app/services/technical_analysis.py:75-143 | For well-formed bars, K and D lie in [0, 100] and J in [−200, 300] at every bar |
| TechnicalAnalysis.CalculateAll | app/services/technical_analysis.py:145-161 | Error exactly for empty input; otherwise the MACD and KDJ results as computed alone, both errors below 9 bars |
| TechnicalAnalysis.GetMacdHistogramSeries | app/services/technical_analysis.py:163-176 | None exactly when MACD errors (fewer than 26 bars); otherwise the histogram, one value per bar |
| TechnicalAnalysis.GetKdjSeries | app/services/technical_analysis.py:178-191 | None exactly when KDJ errors (fewer than 9 bars); otherwise the K, D, J series of the KDJ result |
| SignalDetector.CheckBuySignal | app/services/signal_detector.py:100-139 | MACD (any case): true iff i ≥ 1, both histogram values defined, h[i−1] < 0 and h[i] > 0. KDJ: true iff K and D defined and both below the threshold (default 20). Any other name: false |
| SignalDetector.CheckSellSignal | app/services/signal_detector.py:141-189 | MACD: true iff i ≥ 2, three values defined, h[i−2] < h[i−1] > h[i] and h[i−1] > 0. KDJ: true iff K and D defined and both above the threshold (default 80). Any other name: false |
| SignalDetector.NamesAreCaseInsensitive | app/services/signal_detector.py:115-189 | Both rules give the same answer for an indicator name and its lower-case form |
| SignalDetector.MacdBuyAndSellExclusive | app/services/signal_detector.py:115-177 | The MACD buy and sell rules never fire on the same bar |
| SignalDetector.MacdSellsNotConsecutive | app/services/signal_detector.py:160-177 | The MACD peak rule never fires on two consecutive bars |
| SignalDetector.KdjBuyAndSellExclusive | app/services/signal_detector.py:129-187 | With the buy threshold not above the sell threshold, the KDJ buy and sell rules never fire together |
| SignalDetector.HistogramInput | app/services/signal_detector.py:72-82 | One entry per bar. With fewer than 26 bars MACD fails and every entry is undefined (the NaN fill); otherwise entry i is the MACD histogram at bar i |
| SignalDetector.KInput | app/services/signal_detector.py:73-79 | One entry per bar. With fewer than 9 bars KDJ fails and every entry is undefined; otherwise entry i is K at bar i |
| SignalDetector.DInput | app/services/signal_detector.py:73-79 | One entry per bar. With fewer than 9 bars KDJ fails and every entry is undefined; otherwise entry i is D at bar i |
| SignalDetector.BuyFlags | app/services/signal_detector.py:84-98 | One buy flag per bar |
| SignalDetector.SellFlags | app/services/signal_detector.py:84-98 | One sell flag per bar |
| SignalDetector.EvaluateRules | app/services/signal_detector.py:84-98 | The loop's two lists are the per-bar buy and sell rules mapped over every index |
| SignalDetector.GenerateSignals | app/services/signal_detector.py:50-98 | Returns the buy and sell flag lists of the bars for the chosen indicators and thresholds |
| SignalDetector.FlagsMeaning | app/services/signal_detector.py:84-98 | Every flag is 0 or 1, and is 1 exactly when the rule holds at that bar; buy and sell are evaluated independently |
| SignalDetector.FailedIndicatorNeverSignals | app/services/signal_detector.py:75-82 | When the chosen indicator cannot be computed (MACD below 26 bars, KDJ below 9), every flag it yields is 0 |
| SignalDetector.MacdBuyIsSignalLineCrossing | app/services/signal_detector.py:115-127 | A MACD buy flag is exactly the MACD line crossing above its signal line between bars i−1 and i |
| SignalDetector.BuildBuyReasoning | app/services/signal_detector.py:261-272 | MACD: golden-cross text with yesterday's and today's histogram. KDJ: oversold text with K, D and the threshold in force. Otherwise the generic text |
| SignalDetector.BuildSellReasoning | app/services/signal_detector.py:274-286 | MACD: peak text with the three histogram values. KDJ: overbought text with K, D and the threshold. Otherwise the generic text |
| SignalDetector.BuildHoldReasoning | app/services/signal_detector.py:288-302 | The MACD part appears iff either indicator is MACD, the KDJ part iff either is KDJ, MACD first, nothing else |
| SignalDetector.HoldMessageShape | app/services/signal_detector.py:288-302 | The HOLD text starts with "No clear signal. ", and with both indicators it is that prefix, the MACD part, ", ", then the KDJ part |
| SignalDetector.HoldMessageTwo | app/services/signal_detector.py:302 | Two parts are joined by ", " after the prefix |
| SignalDetector.BothHoldParts | app/services/signal_detector.py:290-300 | With MACD and KDJ both chosen, the parts are exactly [MACD part, KDJ part] |
| SignalDetector.HoldMessage | app/services/signal_detector.py:302 | The HOLD text is the prefix followed by the part texts joined with ", " |
| SignalDetector.GetCurrentSignal | app/services/signal_detector.py:191-259 | Below 3 bars: HOLD with the insufficient-data text and no values. Below 26 bars: HOLD "Error calculating indicators" and no values. Otherwise BUY iff only the buy rule fires at the last bar, SELL iff only the sell rule does, "Conflicting" when both do, each with its reasoning. The reported values are then the last and second-last histogram values rounded to 4 decimals, the last K and D rounded to 2, and the third-last histogram value rounded to 4 |
| TradingSimulator.Report | app/services/trading_simulator.py:129-171 | Rounding a trade for the log keeps its kind, its signal and its execution bar and day |
| TradingSimulator.StartInv | app/services/trading_simulator.py:94-102 | The initial state (balance 10000, flat, nothing pending, empty log) satisfies the loop invariant |
| TradingSimulator.StepSignalRules | app/services/trading_simulator.py:107-141 | A buy order is placed iff a buy signal arrives while flat with no buy pending, and a sell order iff a sell signal arrives while holding with no sell pending. A bar that places an order fills nothing. A bar that fills an order adds one trade of the pending kind and leaves nothing pending, so a signal on a fill bar is dropped |
| TradingSimulator.FillBuyKeepsFlags | app/services/trading_simulator.py:119-127 | A buy fill keeps the position flags consistent with the alternating log |
| TradingSimulator.FillBuyKeepsTiming | app/services/trading_simulator.py:119-138 | A buy fill is recorded at the open of the bar right after its signal bar |
| TradingSimulator.FillBuyKeepsFunds | app/services/trading_simulator.py:120-138 | After a buy fill, shares = (balance − commission) / price and the recorded commission is balance × rate |
| TradingSimulator.FillBuyKeepsPairs | app/services/trading_simulator.py:119-138 | A buy fill keeps every sell paired with the buy before it |
| TradingSimulator.FillBuyKeepsInv | app/services/trading_simulator.py:119-138 | A buy fill preserves the whole loop invariant |
| TradingSimulator.FillSellKeepsFunds | app/services/trading_simulator.py:141-175 | After a sell fill the balance is the positive net proceeds and no shares are held |
| TradingSimulator.FillSellKeepsFlags | app/services/trading_simulator.py:155-175 | A sell fill keeps the position flags consistent with the alternating log |
| TradingSimulator.FillSellKeepsTiming | app/services/trading_simulator.py:141-171 | A sell fill is recorded at the open of the bar right after its signal bar |
| TradingSimulator.FillSellKeepsTraced | app/services/trading_simulator.py:141-171 | A sell fill traces back to the sell signal that placed it |
| TradingSimulator.FillSellKeepsPairs | app/services/trading_simulator.py:141-171 | A sell sells the shares of the buy before it, and its hold days are the days between the two fills |
| TradingSimulator.FillSellKeepsInv | app/services/trading_simulator.py:141-175 | A sell fill preserves the whole loop invariant |
| TradingSimulator.StepKeepsInv | app/services/trading_simulator.py:104-175 | One pass of the loop body preserves the invariant: flags, timing, funds, traceability and pairing |
| TradingSimulator.RunKeepsInv | app/services/trading_simulator.py:94-175 | The invariant holds after any number of bars |
| TradingSimulator.HoldingHasTrades | app/services/trading_simulator.py:119-138 | A position is open only after a bar was processed and a BUY is the last trade |
| TradingSimulator.CloseOutShape | app/services/trading_simulator.py:177-206 | The forced close leaves a log that alternates, has even length, and pairs every sell with its buy |
| TradingSimulator.CloseOutTiming | app/services/trading_simulator.py:177-206 | After the forced close every trade is a next-open fill, except a final "End of period" sale at the last close; fills never overlap |
| TradingSimulator.CloseOutTraced | app/services/trading_simulator.py:177-206 | Every trade except the end-of-period sale traces to a signal of its kind |
| TradingSimulator.CloseOutBalance | app/services/trading_simulator.py:181-190 | Selling a positive holding at a positive close leaves a positive balance |
| TradingSimulator.CloseOutKeepsLog | app/services/trading_simulator.py:177-208 | After the loop and the forced close, the log has its shape, timing and traceability; the balance is positive; and with no trades it is still 10000 |
| TradingSimulator.ExecuteLog | app/services/trading_simulator.py:83-208 | `_execute_trades` returns an alternating BUY/SELL log ending on a SELL, filled at next opens (the last possibly at the final close), each trade caused by a signal of its kind, with a positive balance equal to the initial one when nothing was traded |
| TradingSimulator.PendingBuyAtEndDropped | app/services/trading_simulator.py:177-208 | A buy still pending after the last bar produces no trade and leaves the balance unchanged |
| TradingSimulator.BuyFillInvestsBalance | app/services/trading_simulator.py:120-138 | A buy fill: commission = balance × 0.001, shares × price = balance − commission, the balance itself is unchanged, and the log records those figures |
| TradingSimulator.SaleProfit | app/services/trading_simulator.py:141-171 | Net proceeds = shares × price × (1 − rate). Profit = net proceeds − (the buy's invested amount + its commission rounded to cents). The balance becomes the net proceeds |
| TradingSimulator.AlternatingCounts | app/services/trading_simulator.py:104-206 | In an alternating log, every prefix of length k has ⌈k/2⌉ buys and ⌊k/2⌋ sells |
| TradingSimulator.TradeLogBalanced | app/services/trading_simulator.py:104-206 | The finished log has as many BUYs as SELLs, and every prefix has #BUY − #SELL ∈ {0, 1} |
| TradingSimulator.SellPosition | app/services/trading_simulator.py:141-171 | The sale arithmetic returns the sell record and the net proceeds of selling the position |
| TradingSimulator.ExecuteTrades | app/services/trading_simulator.py:83-208 | The imperative loop over the bars, followed by the forced close, returns exactly the log and balance of the state machine |
| TradingSimulator.SellsOf | app/services/trading_simulator.py:219 | The SELL entries of the log, one per sell, and nothing else |
| TradingSimulator.ProfitsOf | app/services/trading_simulator.py:225 | Only strictly positive values. A value is listed iff some sell made exactly that profit |
| TradingSimulator.LossesOf | app/services/trading_simulator.py:226 | Only strictly negative values. A value is listed iff some sell made exactly that loss |
| TradingSimulator.HoldDaysOf | app/services/trading_simulator.py:241 | Only values of at least one day. A value is listed iff some sell was held exactly that many (positive) days |
| TradingSimulator.WinnersAndLosers | app/services/trading_simulator.py:225-229 | A break-even sell is neither a win nor a loss, so wins + losses ≤ sells |
| TradingSimulator.ProfitsAppend | app/services/trading_simulator.py:225 | The gain list is taken sell by sell, in order: a log split in two gives the two gain lists concatenated |
| TradingSimulator.LossesAppend | app/services/trading_simulator.py:226 | The loss list is taken sell by sell, in order |
| TradingSimulator.HoldDaysAppend | app/services/trading_simulator.py:241 | The holding-period list is taken sell by sell, in order |
| TradingSimulator.FiguresOfOne | app/services/trading_simulator.py:225-241 | A single sell adds its profit iff positive, its loss iff negative, and its hold days iff positive; any other trade adds nothing |
| TradingSimulator.WinRate | app/services/trading_simulator.py:229 | round(100 × wins / sells, 2), so a percentage in [0, 100]: 0 with no wins, 100 when every sell won |
| TradingSimulator.CalculateStatistics | app/services/trading_simulator.py:210-268 | A log without sells (including the empty log) gives all-zero statistics |
| TradingSimulator.GainFigures | app/services/trading_simulator.py:247-251 | Over positive profits: 0 ≤ average ≤ maximum ≤ total, each as rounded |
| TradingSimulator.LossFigures | app/services/trading_simulator.py:248-252 | Over negative losses: total ≤ deepest loss (`min`) ≤ average ≤ 0, each as rounded |
| TradingSimulator.HoldFigure | app/services/trading_simulator.py:241-253 | The average hold of positive holding periods is not negative |
| TradingSimulator.StatisticsBounds | app/services/trading_simulator.py:210-268 | For any log: success rate in [0, 100]; 0 ≤ avg profit ≤ max profit ≤ total profit; total loss ≤ max loss ≤ avg loss ≤ 0; avg hold days ≥ 0 |
| TradingSimulator.FillsInOrder | app/services/trading_simulator.py:232-235 | In a finished log no trade is filled before the first one |
| TradingSimulator.ReportKeepsSellCount | app/services/trading_simulator.py:219 | Rounding the log keeps the number of sells |
| TradingSimulator.FrequencyNotNegative | app/services/trading_simulator.py:232-238 | With dates in time order, the days-between-trades figure is not negative |
| TradingSimulator.ExecutedStatistics | app/services/trading_simulator.py:210-238 | For a simulated log: all-zero statistics when nothing was traded, otherwise at least one sell and exactly one sell per two trades, and a non-negative trade frequency |
| TradingSimulator.SummarySigns | app/services/trading_simulator.py:67-78 | The rounded total return and return percentage have the sign of final − initial balance, are zero when the balance is untouched, and a positive final balance rounds to a non-negative one |
| TradingSimulator.SimulationOf | app/services/trading_simulator.py:32-81 | Error exactly below 50 bars, with the insufficient-data message; otherwise a result |
| TradingSimulator.SimulationOutcome | app/services/trading_simulator.py:53-81 | With ≥ 50 bars: the log has even length, `total_trades` counts BUY and SELL entries, the final balance is non-negative, the success rate is the statistics' one, and a run with no trades has balance 10000, zero return and empty statistics |
| TradingSimulator.Simulate | app/services/trading_simulator.py:32-81 | The imperative simulation (signals, trade loop, rounding, statistics) returns exactly `SimulationOf` |
| MarketScanner.SummaryField | app/services/market_scanner.py:306-315 | A summary field lookup yields a value exactly for the summary's field names |
| MarketScanner.StatisticsField | app/services/market_scanner.py:307-315 | A statistics lookup yields a number exactly for the statistics' field names |
| MarketScanner.FieldOf | app/services/market_scanner.py:315-318 | A rule's field value exists only for known fields, and always for a statistics field |
| MarketScanner.FalsySummaryOnlyFieldIsMissing | app/services/market_scanner.py:315-318 | For a field only the summary has, the value is missing exactly when it is falsy (e.g. 0), so the rule is skipped; otherwise it is the summary value |
| MarketScanner.EvaluateCondition | app/services/market_scanner.py:330-347 | On a number, `<`, `>`, `<=`, `>=`, `==` and `!=` perform that comparison with the rule value. On a text value only `!=` holds. Any other operator never excludes |
| MarketScanner.ComplementaryOperators | app/services/market_scanner.py:330-347 | `==`/`!=`, `<`/`>=` and `>`/`<=` are complementary on numbers; on a text value only `!=` can fire |
| MarketScanner.Survivors | app/services/market_scanner.py:302-328 | The filter keeps at most the input |
| MarketScanner.SurvivorsMembers | app/services/market_scanner.py:302-328 | A result is kept iff it was in the input and no rule fires on it |
| MarketScanner.SurvivorsAppend | app/services/market_scanner.py:302-328 | Filtering is element-wise: it distributes over concatenation, so input order is kept |
| MarketScanner.NoRulesKeepAll | app/services/market_scanner.py:302-328 | With no rules every result is kept, unchanged and in order |
| MarketScanner.ReturnBelowTenRule | app/services/market_scanner.py:315-323 | The rule `return_percentage < 10` excludes a result iff its return is below 10 and non-zero; a zero return escapes through the truthiness lookup |
| MarketScanner.ApplyExcludeRules | app/services/market_scanner.py:291-328 | The loop with early break returns exactly the results no rule fires on, in input order |
| MarketScanner.TextBeforeIrreflexive | app/services/market_scanner.py:387 | String ordering of keys is irreflexive |
| MarketScanner.TextBeforeTransitive | app/services/market_scanner.py:387 | String ordering of keys is transitive |
| MarketScanner.TextBeforeTotal | app/services/market_scanner.py:387 | Any two distinct strings are ordered |
| MarketScanner.ValueBeforeIrreflexive | app/services/market_scanner.py:387 | Key-part ordering is irreflexive |
| MarketScanner.ValueBeforeTransitive | app/services/market_scanner.py:387 | Key-part ordering is transitive |
| MarketScanner.ValueBeforeTotal | app/services/market_scanner.py:387 | Any two distinct key parts are ordered |
| MarketScanner.KeyBeforeIrreflexive | app/services/market_scanner.py:385-387 | Lexicographic tuple ordering is irreflexive |
| MarketScanner.KeyBeforeTransitive | app/services/market_scanner.py:385-387 | Lexicographic tuple ordering is transitive |
| MarketScanner.KeyBeforeTotal | app/services/market_scanner.py:385-387 | Any two distinct keys of equal length are ordered |
| MarketScanner.KeyAtMostTransitive | app/services/market_scanner.py:385-387 | "Not after" on keys is transitive |
| MarketScanner.EffectiveRules | app/services/market_scanner.py:363-365 | The rules in force are the given ones when non-empty; with none given (absent or empty) they are exactly return_percentage descending |
| MarketScanner.SortBase | app/services/market_scanner.py:377 | A key part is the looked-up value when the lookup finds a truthy value, and the number 0 when the field is unknown or its value falsy |
| MarketScanner.Insert | app/services/market_scanner.py:387 | Insertion adds exactly one element |
| MarketScanner.SortResults | app/services/market_scanner.py:387 | Sorting is a permutation of the input |
| MarketScanner.InsertSorted | app/services/market_scanner.py:387 | Inserting into a sorted list keeps it sorted |
| MarketScanner.InsertStable | app/services/market_scanner.py:387 | Insertion puts an element after the elements with the same key, which keeps their order |
| MarketScanner.SortCorrect | app/services/market_scanner.py:387 | `sorted` yields a permutation of the input, ordered by key, and stable: elements with equal keys keep their input order |
| MarketScanner.ApplySorting | app/services/market_scanner.py:349-387 | The sorted results are a permutation of the input, with the same length |
| MarketScanner.DescendingPart | app/services/market_scanner.py:379-381 | A `desc` rule negates a numeric key part |
| MarketScanner.TwoPartOrder | app/services/market_scanner.py:385-387 | Two-part keys in order compare by the first part, then by the second on a tie |
| MarketScanner.SuccessThenReturnDescending | app/services/market_scanner.py:349-387 | Sorting by success rate desc, then return desc, lists success rates non-increasing and returns non-increasing among equal success rates |
| MarketScanner.ReturnIsNumber | app/services/market_scanner.py:377 | The default sort field and the success rate always give numeric key parts |
| MarketScanner.TopN | app/services/market_scanner.py:106-107 | With top_n > 0, the first min(top_n, n) results; otherwise all of them; always a prefix |
| MarketScanner.ApplySortingSorted | app/services/market_scanner.py:349-387 | The sorted results are in order under the rules in force |
| MarketScanner.SelectionComplete | app/services/market_scanner.py:98-107 | Sort then truncate: min(top_n, n) of the survivors (all n when top_n ≤ 0), drawn from them, and no survivor left out sorts strictly before a returned one |
| MarketScanner.TierFor | app/services/market_scanner.py:145-158 | More than 1000 symbols: (0.2, 10, 25). 501–1000: (0.15, 15, 35). Otherwise the defaults (0.1, 20, 50). All positive |
| MarketScanner.TierMonotone | app/services/market_scanner.py:145-158 | A larger scan never has a shorter delay, more workers or larger batches |
| MarketScanner.BatchesPartition | app/services/market_scanner.py:177-190 | The batches cover the symbols exactly once in order; each is non-empty and at most batch_size, and all but the last are full |
| MarketScanner.BatchesFromPartition | app/services/market_scanner.py:177-190 | The same partition property for the batches from any start offset |
| MarketScanner.ThrottlesRetried | app/services/market_scanner.py:281-287 | Attempts that fail with a "rate limit" or "too many requests" message, before the last one, are simply retried |
| MarketScanner.SettleStops | app/services/market_scanner.py:253-289 | The retry loop stops at some attempt after a run of throttled attempts, with data, or with a non-throttle error or the last attempt's error; it never falls through to the "after N attempts" return |
| MarketScanner.ScannedResult | app/services/market_scanner.py:258-279 | A successful scan had at least 50 bars and a successful simulation, and its result is that simulation without the trades, under the upper-cased symbol |
| MarketScanner.Kept | app/services/market_scanner.py:224-238 | At most one result per symbol. Which results are kept, and in which order, is given by KeptOne, KeptAppend, KeptMembers and KeptComplete |
| MarketScanner.KeptStep | app/services/market_scanner.py:177-186 | Scanning a list in two consecutive pieces keeps the same results as scanning it at once |
| MarketScanner.KeptAppend | app/services/market_scanner.py:177-186 | Scanning concatenated lists concatenates the kept results |
| MarketScanner.KeptMembers | app/services/market_scanner.py:224-238 | Every kept result has total_trades ≥ min_trades and is the successful, in-time outcome of one of the scanned symbols |
| MarketScanner.KeptComplete | app/services/market_scanner.py:224-238 | Conversely, a symbol that did not time out, was scanned without error and has at least min_trades trades has its result kept |
| MarketScanner.KeptOne | app/services/market_scanner.py:224-238 | A single symbol keeps exactly its own result when in time, scanned and with at least min_trades trades, and nothing otherwise |
| MarketScanner.ScanPromises | app/services/market_scanner.py:40-128 | Error iff an indicator is not macd/kdj (any case) or there is nothing to scan. Otherwise: every candidate is counted once as success or failure; at most top_n results; each result was kept, meets min_trades, and survives the exclude rules; results are sorted by the rules in force; `top_stocks` lists their symbols in order. Complete as well: exactly min(top_n, m) results (all m when top_n ≤ 0), where m counts the kept results no rule fires on; they are drawn from those results, and no omitted one sorts strictly before a returned one |
| MarketScanner.RespondPromises | app/services/market_scanner.py:98-128 | The response counts scanned, successful and failed symbols consistently; `stocks_after_filters` is the number of results returned; results are sorted, at most top_n, and each is a kept result no rule fires on. Complete as well: exactly min(top_n, m) results (all m when top_n ≤ 0), where m counts the kept results no rule fires on; they are drawn from those results, and no omitted one sorts strictly before a returned one |
| MarketScanner.VocabularyAgainstValidators | app/services/market_scanner.py:389-409 | The advertised indicators, market caps and operators equal what the validators accept. Every advertised period and interval is accepted, but the validators also accept "5y" and the "1mo" interval, which are not advertised. Every sortable field is a result field |
| MarketScanner.Scanner.constructor | app/services/market_scanner.py:30-38 | A new scanner has the default pacing (0.1, 20, 50) |
| MarketScanner.Scanner.AdjustRateLimiting | app/services/market_scanner.py:145-158 | The pacing fields are set to the tier for the scan size |
| MarketScanner.Scanner.ScanSingleStock | app/services/market_scanner.py:242-289 | The retry loop returns the outcome determined by the data source's attempts |
| MarketScanner.Scanner.ScanBatch | app/services/market_scanner.py:199-240 | The batch loop keeps the in-time, successful results that meet min_trades; successful = number kept, and successful + failed = batch size |
| MarketScanner.Scanner.ScanStocks | app/services/market_scanner.py:160-197 | Batched or not, the results are those of scanning every symbol in order; successful + failed = number of symbols; batches are the chunks of batch_size, with a pause only between batches |
| MarketScanner.Scanner.GetStocksToScan | app/services/market_scanner.py:130-143 | The explicit list if non-empty, else the de-duplicated requested categories, else the large caps |
| MarketScanner.Scanner.Scan | app/services/market_scanner.py:40-128 | Returns exactly `ScanOf` (whose promises are `ScanPromises`); pacing is untouched on a validation error and set to the size's tier otherwise |
| MarketScanner.Scanner.Finish | app/services/market_scanner.py:98-128 | Builds the response from the scan counts (see `RespondPromises`) |
| MarketScanner.Scanner.SelectTop | app/services/market_scanner.py:98-107 | Exclude (only with rules), then sort, then truncate to top_n |
| StockFetcher.MarketCapCategory | app/services/stock_fetcher.py:92-103 | Always one of the five bands: mega iff ≥ 200e9, large iff in [10e9, 200e9), mid iff in [2e9, 10e9), small iff in [300e6, 2e9), micro iff < 300e6 |
| StockFetcher.CategoryMonotone | app/services/stock_fetcher.py:92-103 | A larger market cap never falls in a smaller band |
| StockFetcher.CheckMarketCap | app/services/stock_fetcher.py:105-130 | A record exists iff the market cap is present, not None and positive; it carries the symbol, cap and band. The name is the symbol when the key is absent, None when it holds None, and the given name otherwise; sector and industry likewise, with "N/A" for an absent key |
| StockFetcher.LineSymbolMeaning | app/services/stock_fetcher.py:75-83 | A line contributes its stripped first field iff it is not blank, has at least 8 '\|' fields, and its stripped seventh field is "N" |
| StockFetcher.ListingMembers | app/services/stock_fetcher.py:70-83 | The listing's symbols, at most one per data line after the header, are exactly the first fields of the qualifying lines |
| StockFetcher.FetchNasdaqSymbols | app/services/stock_fetcher.py:64-86 | The parse of the downloaded text returns the listing's symbols |
| StockFetcher.ParseListing | app/services/stock_fetcher.py:71-83 | The parse loop collects each qualifying line's symbol in line order |
| StockFetcher.ParseLine | app/services/stock_fetcher.py:75-83 | One line's parse yields its symbol exactly when it qualifies |
| StockFetcher.ValidateData | app/services/stock_fetcher.py:219-230 | Valid only for an object with "summary" and "stocks"; in that case, when "stocks" is an object, valid iff it holds all five categories |
| StockFetcher.StocksByCategory | app/services/stock_fetcher.py:278-279 | No symbols for a missing category. Otherwise the symbols of the category's record entries, in entry order with repeats kept (a filter-map over the entries); a symbol is listed iff an entry carries it |
| StockFetcher.Symbols | app/services/stock_fetcher.py:279 | The symbols of the entries that are records with a symbol, in entry order with repeats kept (a filter-map over the entries); a symbol is listed iff an entry carries it |
| StockFetcher.LargeCapIncludesMega | app/services/stock_fetcher.py:281-302 | Every mega-cap symbol is in the "large_cap" request and in the "all" request |
| StockFetcher.DedupProperties | app/services/stock_fetcher.py:314-330 | De-duplication keeps exactly the input's symbols, without duplicates, in first-occurrence order |
| StockFetcher.DedupSnoc | app/services/stock_fetcher.py:325-328 | One more symbol is appended iff it has not been seen |
| StockFetcher.AppendUnseen | app/services/stock_fetcher.py:325-328 | The inner loop extends the de-duplicated list and the seen set with one category's symbols |
| StockFetcher.StocksByCategories | app/services/stock_fetcher.py:304-330 | The loop with the seen set returns the de-duplication of the requested categories' symbols concatenated in request order |
| StockFetcher.CategoriesUnion | app/services/stock_fetcher.py:304-330 | The result has no duplicates and holds exactly the symbols of the requested categories |
| StockFetcher.RequestedFlatten | app/services/stock_fetcher.py:317-328 | The requested symbols are the category lists concatenated in request order |
| StockFetcher.RequestedMembers | app/services/stock_fetcher.py:317-328 | A symbol is requested iff some requested category (with "all" and "large_cap" expanded) lists it |
| Requests.ValidateOperator | app/schemas/requests.py:31-37 | Accepts exactly the six operators and returns the value unchanged |
| Requests.ValidateOrder | app/schemas/requests.py:56-61 | Accepts iff the lower-case form is asc or desc, and returns that form |
| Requests.OrderIdempotent | app/schemas/requests.py:56-61 | Validating a validated order changes nothing |
| Requests.ValidateIndicator | app/schemas/requests.py:123-129 | Accepts iff the lower-case form is macd or kdj, and returns that form |
| Requests.ValidatePeriod | app/schemas/requests.py:131-137 | Accepts exactly the six periods, unchanged |
| Requests.ValidateInterval | app/schemas/requests.py:139-145 | Accepts exactly the three intervals, unchanged |
| Requests.ValidateMarketCap | app/schemas/requests.py:147-156 | Passes None; a list is accepted iff every tag is one of the six, and is returned unchanged |
| Requests.ValidateStocks | app/schemas/requests.py:165-204 | Accepts 1 to 100 symbols and upper-cases each, keeping length and order |
| Requests.StocksIdempotent | app/schemas/requests.py:200-204 | Validating validated symbols changes nothing |
| Requests.NormaliseOrders | app/schemas/requests.py:51-61 | Each sort rule keeps its field, and its order becomes the lower-cased given order, which is asc or desc |
| Requests.ScanRequestErrorsEmpty | app/schemas/requests.py:64-156 | A scan request has no errors iff both indicators, the period, interval and market caps validate, min_trades ≥ 1, 1 ≤ top_n ≤ 1000, and every exclude operator and sort order is valid |
| Requests.ValidateScanRequest | app/schemas/requests.py:64-156 | Valid iff there are no field errors; otherwise the failing fields, at least one |
| Requests.ScanRequestNormalised | app/schemas/requests.py:64-156 | A valid scan request comes back with lower-cased indicators and sort orders and everything else unchanged |
| Requests.DefaultScanRequestValid | app/schemas/requests.py:71-121 | The defaults (macd/macd, 6mo, 1d, min_trades 3, top_n 10) form a valid request |
| Requests.ValidateSignalsRequest | app/schemas/requests.py:159-204 | Valid iff 1–100 stocks and both indicators validate. The valid form upper-cases each stock in order, sets each indicator to its lower-cased input (macd or kdj), and keeps the period and both thresholds; otherwise the failing fields |
| Requests.SignalsRequestIdempotent | app/schemas/requests.py:159-204 | Validating a validated signals request changes nothing |

## Left out

- Network and file I/O are inputs to the model, not modelled:
  - yfinance history is a `Source` function from symbol, period, interval and attempt to bars or an exception message;
  - ticker info is a `TickerInfo` value, each key absent, holding `None`, or holding a value;
  - the FTP download is the listing text;
  - the JSON cache is a `Json` value or a category map.
- `categorize_stocks`, `update_stocks_database`, `ensure_database_exists`, `save_to_json`, `load_from_json` and `get_stocks_summary` are not modelled. They are network- and file-driven orchestration.
- The HTTP endpoints, `app/main.py` and the router are not modelled.
- Concurrency is not modelled.
  - The thread pools are a sequential fold in input order. A batch's results in the source come in completion order, which is not deterministic; the model keeps them in input order.
  - The 30-second future timeout is a per-symbol predicate `timedOut` in the scan configuration. In the source that timeout cannot fire: `as_completed` yields only finished futures, so `future.result(timeout=...)` returns at once. `timedOut` ≡ false is therefore the faithful configuration; every lemma holds for it as for any other predicate.
- `print` logging, `time.sleep` pacing, the five-second pause between batches and the retry delay are not modelled; they have no effect beyond delay. The model counts the pauses instead.
- The pandas EMA weighting is not modelled. `ema` is a parameter that only preserves length, so nothing about EMA values is proved.
- NaN is not modelled. Bars carry no missing values, so every RSV is defined, the first valid index is 0, and the "stay 0.0 before the seed" case of the K/D initialisation never arises. Undefined indicator values appear only as `None`, for a failed indicator.
- Floating point is not modelled: arithmetic is exact over reals, and `round` is half-to-even on exact values.
- Dates are integer day numbers, and date formatting is omitted.
- Prices are assumed positive (`PositivePrices`). A zero open would make the share count a division by zero, which Python turns into an exception or infinity.
- The reasoning texts render numbers through a formatting function parameter. `SignalDetector.BuildBuyReasoning`, `BuildSellReasoning` and `BuildHoldReasoning` are stated on structured reasoning values. Only the HOLD message's text shape is proved.
- Error message texts of the validators are replaced by the list of failing field names.
- MarketScanner.ValueBefore: comparing a numeric sort key with a text key raises `TypeError` in Python. The model orders every number before every text so that the sort stays total.
- StockFetcher.HasSymbol: the source keeps any `"symbol"` value. The model requires it to be a string.
- MarketScanner.SettleStops: the final "failed after N attempts" return of `_scan_single_stock` is unreachable, because the last attempt always returns. The model keeps it as a settlement that is proved never to occur.
- SignalDetector.GetCurrentSignal: it is not stated that the current signal agrees with the last entry of the `generate_signals` lists.
- TechnicalAnalysis.SmoothInPlace: the arrays are not pre-filled with 0.0 as `pd.Series(0.0, ...)` does, because every element is written before it is read.
- Each scan result keeps only the symbol, the trading summary and the statistics of the simulation, not the full result dictionary.
- TradingSimulator.CalculateStatistics: its own contract covers only the all-zero case. The figures are bounded by `StatisticsBounds` and related to the log by `ExecutedStatistics`.
- ValidateOrder: lower-casing is ASCII only (`Strings.Lower`), where Python's `str.lower` folds every cased letter. The accepted orders do not change, since no non-ASCII character lower-cases to a letter of "asc" or "desc"; the model does not show this.
- ValidateIndicator: lower-casing is ASCII only. For example, "\u212Adj" (Kelvin sign) is lower-cased to "kdj" by Python and accepted by the source, but rejected here.
- ValidateStocks: upper-casing is ASCII only. Python's `str.upper` maps non-ASCII letters too, sometimes to several characters ("ß" becomes "SS"); here those characters are left unchanged.
- ValidateSignalsRequest: inherits the ASCII-only case mapping of ValidateIndicator and ValidateStocks.
- CheckBuySignal: the indicator name is matched after ASCII-only lower-casing, where Python's `str.lower` also folds non-ASCII letters (the Kelvin sign in "\u212Adj").
- CheckSellSignal: the indicator name is matched after ASCII-only lower-casing, as in CheckBuySignal.
- BuildBuyReasoning: the indicator name is matched after ASCII-only lower-casing, as in CheckBuySignal.
- BuildSellReasoning: the indicator name is matched after ASCII-only lower-casing, as in CheckBuySignal.
- BuildHoldReasoning: the indicator name is matched after ASCII-only lower-casing, as in CheckBuySignal.
- ScanPromises: the two indicators are validated with ASCII-only lower-casing, as in ValidateIndicator.
- ScannedResult: the result's symbol is upper-cased with ASCII-only case mapping.
- LineSymbolMeaning: `strip` removes ASCII white space only, where Python's `str.strip` also removes Unicode white space.
