# Go_bitflyer decision core in Dafny

This project models the decision-making part of the Go_bitflyer trading bot. The bot
aggregates bitFlyer ticks into candles. It back-tests five indicator strategies on those
candles and grid-searches their parameters. It then ranks the strategies and trades on
the votes of the best-ranked ones. All of this is written here as pure functions over
immutable values, with contracts and lemmas. Prices are `real`, and instants and
durations are `int` nanoseconds counted from Go's zero time.

| file | module | source it models |
|---|---|---|
| wrappers.dfy | Wrappers | `Option` and `Result` helpers |
| series.dfy | Series | minimum, maximum and sum of a price sequence (reference definitions) |
| bitflyer.dfy | Bitflyer | the `Ticker` record, `GetMidPrice`, `DateTime`, `TruncateDateTime` |
| events.dfy | Events | the signal ledger: `CanBuy`, `CanSell`, `Buy`, `Sell`, `Profit`, `CollectAfter` |
| candle.dfy | Candles | `Candle`, `NewCandle`, `CreateCandleWithDuration` over a map-shaped candle table |
| algo.dfy | TradingAlgo | `minMax`, `min`, `IchimokuCloud` |
| dfcandle.dfy | DfCandle | `DataFrameCandle`, the column projections, the `Add*` guards |
| backtest.dfy | Backtest | `BackTestEma`, `BackTestBb`, `BackTestIchimoku`, `BackTestMacd`, `BackTestRsi` |
| optimize.dfy | Optimize | `OptimizeEma/Bb/Ichimoku/Macd/Rsi`, `OptimizeParams`, `TradeParams`, `Ranking` |
| ai.dfy | Ai | `AI.Buy`, `AI.Sell`, `AI.UpdateOptimizeParams`, `AI.Trade` |
| webserver.dfy | WebServer | the query-parameter handling of `apiCandleHandler`, `strconv.Atoi`, the duration table |

## How the model is built

- **Ledger.** The ledger is a `seq<SignalEvent>`. `Buy` and `Sell` return an `Attempt`: whether the order was accepted, and the ledger after it. `Apply` replays a list of orders from the empty ledger, so properties "of every ledger built by Buy/Sell" are lemmas about `Apply`.
- **Candle store.** The candle table is a `map` from bar start to candle. `CreateCandleWithDuration` returns whether it created a candle, plus the table after the upsert.
- **TA-Lib.** TA-Lib and `tradingalgo.Hv` are the record `TaLib` of function fields. The predicate `Aligned` states the one fact the loops rely on: every output has one value per close.
- **Back-test rules.** Each back-test loop is a `Rule` with the series it reads. `VoteAt` gives the two conditions at one index, with exactly the source's guards. `Replay` folds the loop body over the indices. `Before` is the running ledger just before the body runs at an index, and `RecordsAccepted` states that every order the running ledger accepts lands in the final ledger right after it. The predicates `Cast`/`CastFrom` state where every recorded event came from: the candle index, its time and close, and the condition that held.
- **Grid searches.** These are folds over the candidate grids. `Search` is the strict-improvement loop. `StaleSearch` is the MACD loop, which back-tests the current best rather than the loop's candidate.
- **Ranking.** `sort.Slice` on five rankings is modelled as a stable insertion sort by descending performance. For five elements Go sorts by insertion, which keeps ties in order. `Rank` is an independent reference definition of a family's position, and `RankingByRank` connects the two.
- **Trade.** `Trade` folds `TradeStep` over the candle indices. The state is the engine: ledger, stop limit and parameters. The lock outcome and the re-optimised parameters are inputs.

## Behaviour as written

Where the intended behaviour and the code part ways, the model follows the code:

- `Profit` subtracts price·size for BUY and SELL alike, and returns the post-SELL snapshot as soon as it meets a BUY. It is therefore `-(cost of the SELL run after an optional leading SELL)`. On every alternating ledger this is 0, for example BUY at 100 then SELL at 150 (`Events.ProfitOfRoundTrips`). The intended figure for that round trip, 50, is defined by `Events.IntendedProfit` (see "## Findings"). Every back-test ledger alternates, so every optimiser keeps its defaults with performance 0 (`Optimize.OptimizersKeepDefaults`). `OptimizeParams` then enables no family (`Optimize.OptimizedParamsAreIdle`), and an engine running on optimised parameters never trades (`Ai.OptimizedEngineIsIdle`).
- `minMax` tests `max > price`, so both results are the window minimum. Tenkan, kijun and senkou B are therefore window minima, not mid-ranges (`TradingAlgo.IchimokuCloud`).
- `BackTestMacd` calls `Sell` on both conditions. Its ledger holds at most one SELL and never a BUY (`Backtest.MacdSellsOnly`).
- `OptimizeMacd` back-tests the best triple found so far on every round. It therefore keeps its defaults unless the default back-test is already profitable.
- `OptimizeRsi` never changes the thresholds 30 and 70.
- The `OptimizeBb` loop `k := 1.9; k < 2.1; k += 0.1` runs in float64 and visits 1.9 and 2.0 only. `BbKGrid` holds those two values.
- `apiCandleHandler` parses `bbandsK` with `strconv.Atoi`. A fractional k such as `1.5` falls back to 2 (`WebServer.FractionalKFallsBack`).

## Model

| member | source | states |
|---|---|---|
| Events.Place | app/models/events.go:97-170 | an order is accepted iff the ledger is empty or its last event has the other side and is strictly earlier; a rejected order leaves the ledger as it was; an accepted one appends exactly the requested event; alternation and increasing times are preserved |
| Events.Buy | app/models/events.go:129-148 | accepted iff CanBuy (empty, or last event SELL strictly before t); rejected leaves the ledger unchanged; accepted appends one BUY with the given code, time, price and size; the ledger invariant is kept |
| Events.Sell | app/models/events.go:151-170 | accepted iff CanSell (empty, or last event BUY strictly before t); rejected leaves the ledger unchanged; accepted appends one SELL with the given fields; the ledger invariant is kept |
| Events.ApplyWellFormed | app/models/events.go:97-170 | every ledger built from empty by any sequence of Buy/Sell calls alternates sides and has strictly increasing times |
| Events.ProfitLoopFromSellRun | app/models/events.go:179-197 | from a point where the snapshot equals the total, the profit loop returns the total minus the cost of the following SELL run |
| Events.ProfitIsMinusSellRun | app/models/events.go:173-200 | Profit equals minus the price·size of the SELL run after an optional leading SELL, up to the first BUY |
| Events.CanBuy | app/models/events.go:97-111 | true iff the ledger is empty or its last event is a SELL strictly before t; once true it stays true for every later instant |
| Events.CanSell | app/models/events.go:113-127 | true iff the ledger is empty or its last event is a BUY strictly before t; on a non-empty ledger it excludes CanBuy; once true it stays true for every later instant |
| Events.ProfitLoop | app/models/events.go:179-197 | with non-negative price·size from index i on, the loop returns at most the larger of the running total and the post-SELL snapshot |
| Events.Profit | app/models/events.go:173-200 | when every price·size is non-negative, Profit is at most 0 |
| Events.IntendedFromBuy | app/models/events.go:173-200 | on an alternating ledger, the intended walk from a BUY adds the gain of the closed round trips that follow to the cash |
| Events.IntendedWalkOfAlternating | app/models/events.go:173-200 | the intended walk of an alternating ledger, a leading SELL skipped, is the sum of sell minus buy over its closed round trips |
| Events.IntendedProfit | app/models/events.go:173-200 | the intended profit of every alternating ledger is the sum of sell proceeds minus buy costs over its closed round trips |
| Events.IntendedProfitOfRoundTrips | app/models/events.go:173-200 | the intended profit is 50 for BUY 100 / SELL 150 and 30 for a leading SELL then BUY 50 / SELL 80 |
| Events.ProfitOfAlternatingIsZero | app/models/events.go:173-200 | Profit is exactly 0 on every ledger whose neighbouring events have opposite sides |
| Events.ProfitOfAppliedIsZero | app/models/events.go:174-199 | Profit is 0 for every ledger produced by Buy/Sell from empty, the empty ledger included |
| Events.ProfitOfRoundTrips | app/models/events.go:173-200 | BUY 100 / SELL 150 reports 0, and so does a leading SELL then BUY 50 / SELL 80 |
| Events.CollectFrom | app/models/events.go:219-225 | from index i: None iff every later event is earlier than t; otherwise the suffix starting at the first event at or after t |
| Events.CollectAfter | app/models/events.go:218-226 | None iff every event is earlier than t; otherwise the suffix from the first event with time at or after t, all events before it being earlier |
| Events.CollectAfterFilters | app/models/events.go:218-226 | on a ledger with increasing times, the collected suffix holds exactly the events whose time is at or after t |
| Bitflyer.MidPrice | bitflyer/bitflyer.go:139-141 | the mid price lies between bid and ask, and equals bid when bid = ask |
| Bitflyer.MidPriceSymmetric | bitflyer/bitflyer.go:139-141 | swapping bid and ask leaves the mid price unchanged |
| Bitflyer.DateTime | bitflyer/bitflyer.go:144-150 | an unparseable timestamp yields the zero time; a parsed one is returned as is |
| Bitflyer.TruncateDateTime | bitflyer/bitflyer.go:153-155 | for d > 0 the bar start is a multiple of d with start <= tick time < start + d, and an unparseable tick falls in the bar at the zero time; for d <= 0 the tick time itself |
| Bitflyer.Truncate | bitflyer/bitflyer.go:153-155 | for d > 0 the result is a multiple of d with result <= t < result + d; for d <= 0 the time is unchanged |
| Bitflyer.TruncateUnique | bitflyer/bitflyer.go:153-155 | any multiple of d in (t - d, t] is the truncation of t, so the postcondition pins the result down |
| Bitflyer.TruncateIdempotent | bitflyer/bitflyer.go:153-155 | truncating a truncated time changes nothing |
| Bitflyer.SameBucket | bitflyer/bitflyer.go:153-155 | every instant inside a bucket truncates to the bucket start, so ticks of one bar share a key |
| Candles.NewCandle | app/models/candle.go:23-34 | a candle built with open and close inside [low, high], in particular the one-price bar a new bucket opens with, is sane; time and volume are the given ones |
| Candles.Update | app/models/candle.go:87-97 | code, duration, time and open are kept; close becomes the price; volume grows by the tick volume; when low <= high, high' = max(high, price) and low' = min(low, price); low <= open, close <= high is preserved |
| Candles.CreateCandleWithDuration | app/models/candle.go:75-99 | returns true iff no candle exists at the truncated time; creation stores open = close = high = low = mid price with the tick volume; otherwise the stored candle is updated by the mid price; no other bar changes; sane tables stay sane |
| Candles.IngestAll | app/models/candle.go:75-99 | feeding ticks one by one adds exactly the bar starts of the ticks to the table's keys, leaves every other bar as it was, and keeps a sane table sane |
| Candles.OneBarAggregates | app/models/candle.go:75-99 | feeding ticks of one new bucket yields open = first mid, close = last mid, high = maximum, low = minimum, volume = sum of volumes, and a sane bar |
| Candles.UpdateExtends | app/models/candle.go:88-95 | one more tick extends a bar's max, min and volume sum by that tick |
| TradingAlgo.MinMaxLoop | tradingalgo/algo.go:22-29 | the scan from index i returns the running values combined with the minimum of the rest, in both components |
| TradingAlgo.MinMax | tradingalgo/algo.go:19-31 | on a non-empty window, both results equal the window minimum |
| TradingAlgo.Min | tradingalgo/algo.go:34-40 | the result is one of the arguments and no larger than either |
| TradingAlgo.WindowMid | tradingalgo/algo.go:55-58 | (min + max) / 2 of a window with minMax as written is the window minimum |
| TradingAlgo.Grow | tradingalgo/algo.go:55-70 | appending the window value from index `width` on keeps the line equal to its index formula on all indices seen so far |
| TradingAlgo.GrowSenkouA | tradingalgo/algo.go:63 | senkouA grows by (tenkan[i] + kijun[i]) / 2 from index 26 on and keeps matching its formula |
| TradingAlgo.GrowChikou | tradingalgo/algo.go:64 | chikou grows by inReal[i-26] from index 26 on and keeps matching its formula |
| TradingAlgo.Step | tradingalgo/algo.go:53-71 | one loop pass keeps all five lines equal to their formulas up to the next index |
| TradingAlgo.IchimokuLoop | tradingalgo/algo.go:53-71 | the loop from index i ends with every line equal to its formula on the whole input |
| TradingAlgo.IchimokuCloud | tradingalgo/algo.go:43-73 | all five lines have the input's length (also below 9); tenkan, kijun, senkouA, chikou and senkouB are 0 below 9, 26, 26, 26 and 52; the window lines are then the minimum of the 9, 26 or 52 prices before the index; senkouA = (tenkan + kijun) / 2 and chikou[i] = inReal[i-26] |
| DfCandle.ColumnsAlign | app/models/dfcandle.go:79-130 | every projection has one entry per candle, entry i is that candle's field, and sane candles give low <= open, close <= high column-wise |
| DfCandle.AddSma | app/models/dfcandle.go:133-144 | succeeds iff there are more candles than the period; a failure leaves the frame unchanged; a success appends the period and the SMA of the closes and changes nothing else |
| DfCandle.AddEma | app/models/dfcandle.go:146-157 | succeeds iff there are more candles than the period; unchanged on failure; on success appends the EMA line only |
| DfCandle.AddBBands | app/models/dfcandle.go:159-174 | succeeds iff n <= number of closes; unchanged on failure; on success stores n, k and the three bands only |
| DfCandle.AddIchimoku | app/models/dfcandle.go:176-193 | succeeds iff there are at least 9 closes; unchanged on failure; on success stores the cloud of the closes, each line one value per candle |
| DfCandle.AddRsi | app/models/dfcandle.go:195-206 | succeeds iff there are more candles than the period; unchanged on failure; on success stores the period and the RSI only |
| DfCandle.AddMacd | app/models/dfcandle.go:208-223 | succeeds iff there are more than 1 candles; unchanged on failure; on success stores the three periods and the three MACD series only |
| DfCandle.AddHv | app/models/dfcandle.go:225-236 | succeeds iff the number of closes reaches the period; unchanged on failure; on success appends the HV line only |
| DfCandle.AddEvents | app/models/dfcandle.go:238-245 | the frame takes the stored events iff there is at least one; otherwise it is unchanged |
| Backtest.VoteAt | app/models/dfcandle.go:259-478 | the EMA rule is silent below either period, the band rule below n, the RSI rule after a previous value of exactly 0 or 100; the EMA, Ichimoku and MACD conditions, and the RSI ones with buy threshold <= sell threshold, never both hold; a MACD buy needs both lines below 0 and a sell both above |
| Backtest.StepAt | app/models/dfcandle.go:259-271 | one loop pass: when the first condition holds and the ledger accepts the buy-side order, exactly that order (candle time, close, size 1) is appended; otherwise, when the second holds and the ledger accepts a SELL, exactly that SELL is appended; otherwise nothing changes; every new event was cast at this index and the ledger invariant is kept |
| Backtest.Replay | app/models/dfcandle.go:259-272 | the loop from index i only appends, keeps the ledger invariant, every appended event was cast at some index >= i, with every vote silent the ledger is unchanged, and when it starts from the running ledger at i every vote accepted from i on is recorded at its candle's time and close |
| Backtest.CastFromJoin | app/models/dfcandle.go:259-272 | events cast at index i followed by events cast at later indices are all cast at indices >= i |
| Backtest.RecordedFromJoin | app/models/dfcandle.go:259-272 | if the pass at index i runs on the running ledger and what follows records every vote accepted from i + 1 on, the final ledger records every vote accepted from i on, each right after the running ledger at its index |
| Backtest.Run | app/models/dfcandle.go:253-273 | a replay from the empty ledger at index 1 is well formed, reports profit 0, every event was cast by the rule, and every vote the running ledger accepts is recorded at its candle's time and close |
| Backtest.SilentBeforeIsEmpty | app/models/dfcandle.go:253-272 | while the rule is silent the running ledger stays empty |
| Backtest.FirstVoteRecorded | app/models/dfcandle.go:253-272 | the ledger starts with the order of the first index where a condition holds, on the buy side when the first condition holds |
| Backtest.BackTestEma | app/models/dfcandle.go:248-274 | nil iff len <= period1 or len <= period2; otherwise a well-formed ledger with profit 0 whose every event is a golden-cross BUY or dead-cross SELL at its candle's time and close; every accepted crossing is recorded |
| Backtest.BackTestBb | app/models/dfcandle.go:301-327 | nil iff len <= n; otherwise every event is a lower-band BUY or upper-band SELL at an index >= n, in a well-formed ledger with profit 0; every accepted band crossing is recorded |
| Backtest.BackTestIchimoku | app/models/dfcandle.go:353-381 | nil iff len <= 52; otherwise every event is a cloud-break BUY or SELL, in a well-formed ledger with profit 0; every accepted cloud break is recorded |
| Backtest.BackTestMacd | app/models/dfcandle.go:395-427 | nil iff len does not exceed each of the three periods; otherwise every event is a SELL cast by one of the two MACD crossings; every accepted crossing's SELL is recorded |
| Backtest.BackTestRsi | app/models/dfcandle.go:457-480 | nil iff len <= period; otherwise every event is a threshold crossing at an index whose previous RSI is neither 0 nor 100; every accepted threshold crossing is recorded |
| Backtest.MacdSellsOnly | app/models/dfcandle.go:406-424 | the MACD ledger holds no BUY and at most one event |
| Backtest.EmaWaitsForPeriods | app/models/dfcandle.go:259-262 | every EMA event sits at a candle index no smaller than either period |
| Backtest.RsiSkipsExtremes | app/models/dfcandle.go:465-468 | no RSI event sits at an index whose previous RSI value is exactly 0 or 100 |
| Optimize.Range | app/models/dfcandle.go:282 | the grid of one loop holds exactly the integers lo <= x < hi, in order |
| Optimize.Pairs | app/models/dfcandle.go:282-283 | the grid of two nested loops holds exactly the pairs of their values |
| Optimize.Score | app/models/dfcandle.go:285-289 | a back-test that returned nil has no score; otherwise the score is its Profit |
| Optimize.Search | app/models/dfcandle.go:282-296 | the running best never decreases; it changes only to a candidate whose score is strictly higher; the final best is at least every candidate's score |
| Optimize.StaleSearch | app/models/dfcandle.go:436-452 | the best never decreases and changes only to a grid candidate; when the current best's own back-test does not beat its performance, nothing changes |
| Optimize.EmaGridCovers | app/models/dfcandle.go:282-283 | the EMA grid holds every pair 5 <= p1 < 50, 12 <= p2 < 50 |
| Optimize.OptimizeEma | app/models/dfcandle.go:277-297 | performance >= 0; defaults 7/14 when it is 0; a positive result is the profit of its own grid pair; no pair of the grid does better |
| Optimize.OptimizeBb | app/models/dfcandle.go:330-350 | performance >= 0; defaults 20/2.0 when it is 0; a positive result is the profit of its own grid pair; no n in 10..19, k in {1.9, 2.0} does better |
| Optimize.OptimizeIchimoku | app/models/dfcandle.go:384-392 | as written the Ichimoku performance is always 0, the profit of its back-test when there is one |
| Optimize.OptimizeMacd | app/models/dfcandle.go:430-454 | performance >= 0; defaults 12/26/9 when it is 0; a positive result lies in the grid; when the default triple's back-test does not profit, the defaults come back |
| Optimize.OptimizeRsi | app/models/dfcandle.go:483-504 | thresholds are always 30/70; performance >= 0; period 14 when it is 0; a positive result is the profit of its period; no period in 5..24 does better |
| Optimize.Insert | app/models/dfcandle.go:548 | inserting a family into an ordered list gives an ordered list with exactly one more member |
| Optimize.SortRankings | app/models/dfcandle.go:548 | the sort holds each family exactly once, ordered by descending performance with ties in list order |
| Optimize.MarkLoop | app/models/dfcandle.go:551-559 | a family ends enabled iff it was, or it has positive performance and sits at a sorted position below numRanking |
| Optimize.Rankings | app/models/dfcandle.go:545-559 | one flag per family; a flag is set only for positive performance |
| Optimize.OrderedDistinct | app/models/dfcandle.go:548 | a sorted list names no family twice |
| Optimize.PositionIsRank | app/models/dfcandle.go:548 | a family's position in the sorted list is the number of families ranked ahead of it |
| Optimize.RankingByRank | app/models/dfcandle.go:545-559 | a family is enabled iff its performance is positive and fewer than numRanking families rank ahead of it |
| Optimize.AheadOfEnabledIsEnabled | app/models/dfcandle.go:545-559 | a family ranked ahead of an enabled family is enabled too |
| Optimize.RankingCount | app/models/dfcandle.go:551-554 | at most numRanking families are enabled, and none when numRanking <= 0 |
| Optimize.RankingMonotone | app/models/dfcandle.go:551-559 | raising numRanking never disables a family; once it covers all five, enabled means positive performance |
| Optimize.Choose | app/models/dfcandle.go:539-578 | each family's best parameters are copied through; the enable flags are the rankings of the five performances in the order EMA, BB, MACD, Ichimoku, RSI; each flag implies a positive performance |
| Optimize.OptimizeParams | app/models/dfcandle.go:532-580 | RSI thresholds are 30/70; EMA and Ichimoku are enabled only with a positive optimised performance |
| Optimize.OptimizersKeepDefaults | app/models/dfcandle.go:277-504 | as written every optimiser returns performance 0 with its default parameters |
| Optimize.OptimizedParamsAreIdle | app/models/dfcandle.go:532-580 | as written OptimizeParams enables no family and returns the default parameters |
| Ai.Buy | app/controllers/ai.go:78-87 | completed iff back-test mode and CanBuy at the candle time; completed appends a size-1 BUY at the candle's close; otherwise the engine is unchanged; the acceptance id is empty |
| Ai.Sell | app/controllers/ai.go:90-99 | completed iff back-test mode and CanSell; completed appends a size-1 SELL at the close; otherwise nothing changes |
| Ai.UpdateOptimizeParams | app/controllers/ai.go:70-75 | only the parameters are replaced, with RSI thresholds 30/70 |
| Ai.EnabledRules | app/controllers/ai.go:109-140 | one rule per set flag; each family's rule, on that family's parameters, is present iff its flag is set; the rules come in the order EMA, BB, MACD, Ichimoku, RSI; none iff no family is enabled; every rule's series has one value per candle |
| Ai.Push | app/controllers/ai.go:109-140 | the list grows by one exactly when the flag is set; its members are the old ones plus the rule when the flag is set; a rule of a later family keeps the list in family order |
| Ai.AssembleCount | app/controllers/ai.go:109-140 | the rule list has one entry per set flag |
| Ai.AssembleMembers | app/controllers/ai.go:109-140 | the members of the rule list are exactly the rules whose flags are set |
| Ai.AssemblePresence | app/controllers/ai.go:109-140 | each family's rule is in the list iff its flag is set |
| Ai.AssembleInOrder | app/controllers/ai.go:109-140 | the rules come in the order the families are evaluated: EMA, BB, MACD, Ichimoku, RSI |
| Ai.AssembleFit | app/controllers/ai.go:109-140 | every rule in the list has one value per candle in its series |
| Ai.Tally | app/controllers/ai.go:144-202 | buyPoint and sellPoint lie in [0, number of enabled rules]; each is positive iff some enabled rule votes that way |
| Ai.SellPhase | app/controllers/ai.go:213-222 | when a sell vote or a close below the stop limit meets a back-test ledger that accepts a SELL, the SELL is recorded, the stop limit cleared and the refreshed parameters installed; otherwise nothing changes |
| Ai.TradeStep | app/controllers/ai.go:204-222 | with a buy vote: a completed BUY is recorded and arms the stop limit at close times percent, and a refused one changes nothing; without one, the pass is the sell phase with its completed-sell and nothing-changes cases |
| Ai.TradeLoop | app/controllers/ai.go:142-223 | the loop only appends, at most one order per pass, ends with the parameters it started with or the refreshed ones, keeps the ledger's alternation and time order and the stop-limit invariant, and changes nothing in live mode |
| Ai.Trade | app/controllers/ai.go:102-224 | without the lock nothing changes; code, mode and stop-limit percent are kept; in live mode nothing changes; the parameters end as they were or as the refreshed ones |
| Ai.TradeStepFacts | app/controllers/ai.go:204-222 | one pass only appends to the ledger, keeps alternation and increasing times, arms the stop limit only while holding, and changes nothing in live mode |
| Ai.TradeKeepsInvariants | app/controllers/ai.go:102-224 | Trade only appends to the ledger, preserves its alternation and time order, and arms the stop limit only while a BUY is open |
| Ai.StopLimitForcesSell | app/controllers/ai.go:214-222 | with no buy vote and the close below the armed stop limit, the pass sells at the close, clears the stop limit and installs the refreshed parameters |
| Ai.BuyArmsStopLimit | app/controllers/ai.go:204-222 | in back-test mode, a buy vote the ledger accepts records a size-1 BUY at the close and arms the stop limit at close times percent; the same pass sells nothing |
| Ai.RejectedBuySkipsSell | app/controllers/ai.go:204-209 | a buy vote whose order is not completed leaves the engine unchanged, even with a sell vote or a close below the stop limit |
| Ai.SellVoteSells | app/controllers/ai.go:213-222 | in back-test mode, with no buy vote and a sell vote the ledger accepts, the pass records a size-1 SELL at the close, clears the stop limit and installs the refreshed parameters |
| Ai.ReoptimisedSellDisables | app/controllers/ai.go:213-222 | when the re-optimisation reads a candle window, a pass that completes a sell leaves every family disabled and the stop limit cleared |
| Ai.ReoptimisedTradeDisables | app/controllers/ai.go:102-224 | with that re-optimisation, Trade ends on its original parameters or on disabled ones, and from disabled parameters with the stop limit cleared the next Trade on non-negative closes changes nothing |
| Ai.IdleLoop | app/controllers/ai.go:142-223 | with no rule enabled and the stop limit at or below every close, the loop changes nothing |
| Ai.DisabledParamsNeverTrade | app/controllers/ai.go:102-224 | with every family disabled and an unarmed stop limit, Trade leaves the engine as it was |
| Ai.OptimizedEngineIsIdle | app/controllers/ai.go:102-224 | as written, an engine on optimised parameters with stop limit 0 and non-negative closes never trades |
| WebServer.Atoi | app/controllers/webserver.go:66 | the empty string and anything containing '.' are errors; every parsed value lies in the int64 range |
| WebServer.AtoiItoa | app/controllers/webserver.go:66 | Atoi reads back the decimal text of every int64 |
| WebServer.ParamOr | app/controllers/webserver.go:85-88 | the parsed value when present, valid and non-negative, else the default; an absent key gives the default; a non-negative default gives a non-negative result |
| WebServer.ParamOrReadsBack | app/controllers/webserver.go:85-88 | a non-negative period written into the query is the period used |
| WebServer.Limit | app/controllers/webserver.go:65-69 | always in [0, 1000]; the parsed value when it lies in that range, else 1000 |
| WebServer.LimitReadsBack | app/controllers/webserver.go:65-69 | a limit n in the query yields n when 0 <= n <= 1000 and 1000 otherwise |
| WebServer.DurationOf | config/config.go:43-47 | "1s", "1m" and "1h" map to their positive durations; any other key gives the zero duration |
| WebServer.ParseCandleQuery | app/controllers/webserver.go:59-203 | an empty product_code is the 400 error "No product_code param" and the only error; otherwise the limit is in [0, 1000], the duration key defaults to "1m", every period is non-negative, and each indicator is requested iff its switch is non-empty |
| WebServer.DefaultsWhenAbsent | app/controllers/webserver.go:65-203 | with no value parameters: limit 1000, duration 1m, SMA/EMA 7/14/50, bands 20 and 2, RSI 14, MACD 12/26/9, HV 21/63/252 |
| WebServer.FractionalKFallsBack | app/controllers/webserver.go:141-145 | a bbandsK containing '.' gives k = 2 |

## Left out

- **Network and exchange client.** This is the HTTP requests, HMAC-SHA256 signing, the WebSocket JSON-RPC subscription, balances and the live-mode orders. In live mode `AI.Buy`/`AI.Sell` return the zero results, and that is what the model does.
- **SQLite persistence.**
  - Not modelled: `Candle.Create/Save`, `GetCandle`, `GetAllCandle`, `SignalEvent.Save` (and its panic on a duplicate key), `GetSignalEventsByCount/AfterTime`, and the schema in app/models/base.go. This is database I/O.
  - The candle table is a map argument. The frame `Trade` and `UpdateOptimizeParams` read is an argument. The events `AddEvents` reads are an argument.
  - `Buy`/`Sell` are modelled on the `save=false` path every modelled caller uses.
- **TA-Lib and `tradingalgo.Hv`.** These are foreign numerics, represented by the uninterpreted functions of `TaLib`. TA-Lib's own panics and look-back rules on short inputs are not modelled; `Aligned` only states the output lengths.
- **Floating point.** Prices are reals. The float64 rounding of sums and halvings is not modelled. The float loop over k in `OptimizeBb` is replaced by its two float64 values.
- **Concurrency.** The trade semaphore is the `acquired` argument of `Trade`. Goroutines and channels in app/controllers/streamdata.go are not modelled.
- **RFC 3339 parsing.** `DateTime` takes the timestamp already parsed, or `None` when parsing fails (section 5.6 of RFC 3339). The parser itself is not modelled.
- **Web plumbing.** Routing, templates, JSON encoding and `APIError` writing are not modelled. The rest of `apiCandleHandler` after the parameters is not modelled either: the `Add*` calls on the frame, and the `events` branch with `df.Candles[0]`, which panics on an empty frame. The frame-building part needs the database.
- **Start-up.** `NewAI`, config loading, logging and `main.go`.
- WebServer.ParseCandleQuery: does not apply the `Add*` calls to a frame; each `Add*` has its own contract in `DfCandle`.
- Optimize.OptimizeParams: only the EMA and Ichimoku enable flags are tied to their optimiser's performance in this contract. All five flags, and their exact ranking, are stated by `Optimize.Choose`, which `OptimizeParams` calls with the five optimiser results.
- Ai.Trade: the contract states what the whole call keeps. Each pass is stated by `Ai.TradeStep` and `Ai.SellPhase`, and their cases by `Ai.BuyArmsStopLimit`, `Ai.RejectedBuySkipsSell`, `Ai.SellVoteSells` and `Ai.StopLimitForcesSell`; the whole call's invariants by `Ai.TradeKeepsInvariants`.
- Ai.Trade: every re-optimisation after a sell installs the same `refreshed` parameters. The source re-reads the candle window from the store each time, which the model takes to be the same window; `Ai.ReoptimisedSellDisables` and `Ai.ReoptimisedTradeDisables` state the case where `refreshed` is `OptimizeParams` of that window.

## Findings

| source | as written | input that shows it | evidently intended | confidence | as-written member | corrected member |
|---|---|---|---|---|---|---|
| app/models/events.go:173-200 | the SELL branch subtracts price·size like the BUY branch, and the loop returns at the first BUY | BUY 100 at t1, SELL 150 at t2 reports 0 | 50: sell proceeds minus buy costs over the closed round trips | not executed; high | Events.ProfitOfRoundTrips | Events.IntendedProfitOfRoundTrips |

The back-tests, optimisers and `Trade` keep the as-written `Events.Profit`, because the bot's ranking and trading behaviour depend on it; `Events.IntendedProfit` is the corrected definition, and `Events.IntendedProfit` with `Events.IntendedWalkOfAlternating` proves it is the closed round trips' gain on every alternating ledger.
