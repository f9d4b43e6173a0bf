# Trading robot core, modelled in Dafny

This project models the decision-making core of a TypeScript trading robot.
The robot runs one strategy per trading pair as a small state machine. Each
strategy handler reads market data through a trade API, decides, and
dispatches the next handler. There are three strategies:

- **DCA**, dollar-cost averaging: buy on a schedule and sell any stored
  order that has become cheap.
- **Bollinger bands**: trade when the price reverses at a band edge.
- **Follow portfolio**: mirror the proportions of a source portfolio into a
  target portfolio.

The model also covers the utilities these strategies rely on:
- the state machine;
- the linked-list queue;
- the time converter and the interval parser;
- the range check;
- the indicator math;
- the JSON order store;
- the backtest API;
- the pure parts of the Tinkoff adapter:
  - the order cache and reading orders back from it;
  - balance and lot quantities;
  - mapping a configured interval to a candle interval;
  - splitting a history request into day frames, and those frames into per-minute chunks.

How the model is built:
- Prices and quantities are exact `real`s.
- Values a handler fetches (candles, orders, balances, the clock) are parameters.
- The calls a handler makes on the trade API or the store are returned as a
  sequence of `ApiCall` values, in the order the handler makes them.
- The state machine is a class with:
  - a `state` field;
  - a constant transition table;
  - an `invoked` log that records each dispatched handler and its payload.
- Strategy handlers are methods on that machine. They state:
  - which state the machine is left in;
  - which handler is dispatched next, and with what arguments.

Modules and files:

| file | module | source |
|---|---|---|
| wrappers.dfy | Wrappers | Option and Result |
| entities.dfy | Entities | candles, orders, positions, trade sides, JS truthiness and string keys |
| real_arith.dfy | RealArith | multiplication and division over reals, behind function symbols |
| state_machine.dfy | StateMachine | src/utils/stateMachine |
| queue.dfy | DataStructures | src/utils/dataStructures |
| range_math.dfy | RangeMath | src/utils/math |
| trade_indicators.dfy | TradeIndicators | src/utils/tradeIndictors |
| time_converter.dfy | TimeConverter | src/utils/timeConverter |
| parse_time.dfy | ParseTime | src/utils/parseTimeFromConfig |
| order_store.dfy | OrderStore | src/db.ts, src/repositories/orderRepository/localRepository.ts |
| dca.dfy | Dca | src/strategies/DCA |
| bollinger.dfy | Bollinger | src/strategies/bollindgerBands |
| follow_portfolio.dfy | FollowPortfolio | src/strategies/followPortfolio |
| backtest_api.dfy | Backtest | src/tradeAPI/backtestApi.ts |
| tinkoff.dfy | Tinkoff | src/tradeAPI/tinkoff.ts (pure helpers only) |

## Model

| member | source | states |
|---|---|---|
| StateMachine.Called | src/utils/stateMachine/index.ts:20-30 | A dispatch invokes at most one handler. It invokes none exactly when the current state has no entry for the event, and otherwise the handler in the table, with the payload unchanged. |
| StateMachine.Machine.constructor | src/utils/stateMachine/index.ts:15-18 | A new machine starts in the given state, with the given table and nothing invoked. |
| StateMachine.Machine.Dispatch | src/utils/stateMachine/index.ts:20-30 | Dispatch never changes the state. It returns the handler found under [state, event], or none when that lookup misses, and appends exactly that invocation to the log. |
| StateMachine.Machine.ChangeState | src/utils/stateMachine/index.ts:32-34 | Only the state changes, and no handler runs. |
| StateMachine.DispatchAllInUnknownState | src/utils/stateMachine/index.ts:20-28 | In a state the table does not know, any number of dispatches leave both the state and the log unchanged. |
| StateMachine.ChangeToUnknownSilences | src/utils/stateMachine/index.ts:20-34 | After moving to an unknown state, no dispatch invokes anything. |
| DataStructures.Node.constructor | src/utils/dataStructures/linkedList.ts:7-16 | A list node holds its data and has no neighbours. |
| DataStructures.Queue.constructor | src/utils/dataStructures/queue.ts:3-6 | A new queue is empty and well formed. |
| DataStructures.Queue.Size | src/utils/dataStructures/queue.ts:44-46 | The size counter equals the number of queued items. |
| DataStructures.Queue.Enq | src/utils/dataStructures/queue.ts:7-19 | The item is appended at the tail, the size grows by one, and the doubly linked list stays well formed. |
| DataStructures.Queue.Deq | src/utils/dataStructures/queue.ts:21-42 | An empty queue yields nothing. Otherwise the call yields the oldest item, the rest stay in order, and an emptied queue has neither head nor tail. |
| DataStructures.FifoOrder | src/utils/dataStructures/queue.ts:7-42 | Two items come out in the order they went in, and a third dequeue finds the queue empty. |
| RangeMath.InRangePermutation | src/utils/math/index.ts:1-4 | Whether a number is in range does not depend on the order of the array, so sorting in place does not change the answer. |
| RangeMath.InRangePair | src/utils/math/index.ts:1-4 | For a two-element array, in range means between the two values, in either order. |
| RangeMath.SortedEnds | src/utils/math/index.ts:3 | On a sorted array, in range means at least the first element and at most the last. |
| RangeMath.Swap | src/utils/math/index.ts:2 | Exchanges two cells and nothing else. The multiset of values is kept. |
| RangeMath.SortAscending | src/utils/math/index.ts:2 | The array becomes ascending and is a permutation of its old contents. |
| RangeMath.IsInRange | src/utils/math/index.ts:1-4 | Sorts the caller's array in place (ascending, a permutation). Answers whether x lies between the smallest and the largest value, which is false on an empty array. |
| TradeIndicators.CandleDirection | src/utils/tradeIndictors/index.ts:27-33 | BUY exactly when the opening price is at least the closing price, and SELL exactly when the price rose. |
| TradeIndicators.SumAbove | src/utils/tradeIndictors/index.ts:12-17 | If every price is above c, the total is above n·c. |
| TradeIndicators.SumBelow | src/utils/tradeIndictors/index.ts:12-17 | If every price is below c, the total is below n·c. |
| TradeIndicators.SumConstant | src/utils/tradeIndictors/index.ts:12-17 | n equal prices sum to n·c. |
| TradeIndicators.MovingAverageInRange | src/utils/tradeIndictors/index.ts:12-17 | The moving average lies between the lowest and the highest price. |
| TradeIndicators.MovingAverageConstant | src/utils/tradeIndictors/index.ts:12-17 | The moving average of constant prices is that constant. |
| TradeIndicators.MovingAverageSample | src/utils/tradeIndictors/test.spec.ts:9-13 | The moving average of 1..5 is 3. |
| TradeIndicators.VarianceSample | src/utils/tradeIndictors/test.spec.ts:15-17 | The biased variance of 1..5 is 10/6. Its root, 1.29099…, is the deviation that test.spec.ts expects. |
| TradeIndicators.SquaredDeviationsNonNegative | src/utils/tradeIndictors/index.ts:19-20 | A sum of squared deviations is never negative. |
| TradeIndicators.SquaredDeviationsZero | src/utils/tradeIndictors/index.ts:19-20 | The squared deviations from m vanish if and only if every price equals m. |
| TradeIndicators.VarianceNonNegative | src/utils/tradeIndictors/index.ts:19-20 | The variance is never negative, so a real standard deviation exists. |
| TradeIndicators.VarianceZeroIffConstant | src/utils/tradeIndictors/index.ts:19-20 | The variance is zero if and only if all prices are equal. |
| TradeIndicators.StdDevOfConstant | src/utils/tradeIndictors/index.ts:19-20 | The standard deviation of constant prices is zero. |
| RealArith.Nearest | src/strategies/followPortfolio/index.ts:164 | mathjs `round`: the nearest whole number, within one half, with halves away from zero. The result is zero exactly for values strictly between −0.5 and 0.5. |
| RealArith.ToFixed2 | src/utils/timeConverter/index.ts:27 | `Number(x.toFixed(2))` has at most two decimals and lies within 0.005 of x. It is non-negative for non-negative x. |
| RealArith.FixedKeepsHundredths | src/utils/timeConverter/index.ts:27 | Rounding a value that has at most two decimals leaves it unchanged. |
| TimeConverter.MeasuresAreZeroToFive | src/utils/timeConverter/index.ts:5-24 | The measures the converter accepts are exactly 0..5, from milliseconds to weeks. |
| TimeConverter.Factor | src/utils/timeConverter/index.ts:15 | The product of the conversion steps between two measures is positive. |
| TimeConverter.FactorIntegral | src/utils/timeConverter/index.ts:15 | Every factor between two measures is a whole number. |
| TimeConverter.FactorTop | src/utils/timeConverter/index.ts:28-38 | The factor up to a measure is the factor up to the one below it, times that step. |
| TimeConverter.FactorSplit | src/utils/timeConverter/index.ts:28-38 | Factors compose: lo→k→hi equals lo→hi. |
| TimeConverter.Convert | src/utils/timeConverter/index.ts:14-40 | An out-of-range "from" fails first, and an out-of-range "to" fails second. Otherwise the time is rounded to two decimals, and the loops divide it (going up) or multiply it (going down) by the factor between the measures. |
| TimeConverter.ConvertSame | src/utils/timeConverter/index.ts:26-39 | Converting to the same measure only rounds to two decimals, so a value with at most two decimals comes back unchanged. |
| TimeConverter.DownHasHundredths | src/utils/timeConverter/index.ts:27-38 | Converting to a smaller measure gives a value with at most two decimals. |
| TimeConverter.RoundTripUp | src/utils/timeConverter/index.ts:27-38 | Converting to a larger measure and back gives the time rounded to two decimals, provided the intermediate value has at most two decimals. |
| TimeConverter.RoundTripDown | src/utils/timeConverter/index.ts:27-38 | Converting to a smaller measure and back gives the time rounded to two decimals. |
| TimeConverter.RoundTripLosesMillisecond | src/utils/timeConverter/index.ts:27-32 | 1 ms is 0.001 s, which the rounding on the way back turns into 0, so the round trip gives 0 ms. |
| TimeConverter.ConvertThrough | src/utils/timeConverter/index.ts:34-37 | Converting down in two steps equals converting down in one. |
| TimeConverter.WeekInMillis | src/utils/timeConverter/test.spec.ts:235 | Converting one week to milliseconds gives 604800000. |
| TimeConverter.NinetySecondsInMinutes | src/utils/timeConverter/test.spec.ts:73 | Converting 90 seconds to minutes gives 1.5. |
| TimeConverter.DayInMillis | src/utils/timeConverter/test.spec.ts:190 | Converting one day to milliseconds gives 86400000. |
| TimeConverter.MillisInDay | src/utils/timeConverter/test.spec.ts:43 | Converting 86400000 milliseconds to days gives 1. |
| ParseTime.DigitRunEnd | src/utils/parseTimeFromConfig/index.ts:14 | Finds the end of the longest run of digits (`\d{1,}` is greedy). |
| ParseTime.LowerRunEnd | src/utils/parseTimeFromConfig/index.ts:14 | Finds the end of the longest run of lower-case letters (`[a-z]{1,}`). |
| ParseTime.FindMatch | src/utils/parseTimeFromConfig/index.ts:14 | Finds the leftmost position where digits are followed by a letter, or proves there is none. |
| ParseTime.DigitValue | src/utils/parseTimeFromConfig/index.ts:17 | A digit's value is below ten. |
| ParseTime.UnitOf | src/utils/parseTimeFromConfig/index.ts:3-7 | Only "m", "h" and "d" name a unit: minutes, hours and days. Any other suffix leaves the unit undefined. |
| ParseTime.Parse | src/utils/parseTimeFromConfig/index.ts:13-20 | With no match, the result is None, which stands for the throw. Otherwise the value is read from the leftmost match's greedy digit run and the unit from the letters after it. |
| ParseTime.DecimalString | src/utils/parseTimeFromConfig/index.ts:17 | Writes a number as a non-empty string of digits. |
| ParseTime.DecimalRoundTrip | src/utils/parseTimeFromConfig/index.ts:17 | Reading back a written number gives the number. |
| ParseTime.ParseRoundTrip | src/utils/parseTimeFromConfig/index.ts:13-20 | Parsing a number followed by letters returns that number and the unit the letters name. |
| ParseTime.DigitRunEndAt | src/utils/parseTimeFromConfig/index.ts:14 | A maximal digit run is the one the parser finds. |
| ParseTime.LowerRunEndAt | src/utils/parseTimeFromConfig/index.ts:14 | A maximal letter run is the one the parser finds. |
| ParseTime.ParseMinutes | src/utils/parseTimeFromConfig/test.spec.ts:6-12 | "30m" parses to 30 minutes. |
| ParseTime.ParseHours | src/utils/parseTimeFromConfig/test.spec.ts:14-20 | "1h" parses to 1 hour. |
| ParseTime.ParseDays | src/utils/parseTimeFromConfig/test.spec.ts:22-28 | "1d" parses to 1 day. |
| ParseTime.ParseWithoutUnit | src/utils/parseTimeFromConfig/index.ts:14 | "15" has no unit letters, so it does not match and the parser throws. |
| ParseTime.IntervalMillis | src/strategies/DCA/index.ts:44-45 | An interval in milliseconds exists only for a parsed string with a known unit, and it is never negative. |
| ParseTime.IntervalOfCount | src/strategies/DCA/index.ts:44-45 | n followed by m, h or d is n of that unit, converted to milliseconds. |
| ParseTime.IntervalPositive | src/strategies/DCA/index.ts:44-45 | A positive count with a known unit gives a positive gap. |
| ParseTime.FifteenMinutes | src/strategies/DCA/index.ts:44-45 | "15m" is 900000 ms. |
| OrderStore.InsertByPrice | src/db.ts:58-59 | Pushes the order and keeps the list sorted by price, highest first. The result is the old list with the order inserted at one index, so it is a permutation of old plus new. |
| OrderStore.InsertedSorted | src/db.ts:59 | Inserting after every order that is at least as expensive, and before every cheaper one, keeps the descending order. |
| OrderStore.Kept | src/db.ts:66 | A filter keeps exactly the orders the predicate accepts, and no others. |
| OrderStore.KeptAll | src/db.ts:66 | Filtering with a predicate every order meets returns the list unchanged. |
| OrderStore.KeptSorted | src/db.ts:66 | Filtering a price-sorted list keeps it sorted. |
| OrderStore.Filter | src/repositories/orderRepository/localRepository.ts:39-42 | The filter loop computes exactly the specification filter. |
| OrderStore.DefaultRecordAsWritten | src/db.ts:18-22 | A missing file reads as no orders, with the last order time set to the time of reading. |
| OrderStore.DefaultRecord | src/db.ts:18-22 | The corrected default: no orders and no last order time. |
| OrderStore.RemainingAsWritten | src/db.ts:66 | Deletion keeps exactly the orders whose String(orderId) differs from the id. |
| OrderStore.Remaining | src/db.ts:64-69 | The corrected deletion keeps exactly the orders whose key (`id \|\| orderId`) differs from the id. |
| OrderStore.DeleteByIdMissed | src/db.ts:66 | An order that has an id but no orderId survives its own deletion as written, and is removed by the corrected deletion. |
| OrderStore.DataBase.constructor | src/db.ts:12 | The store starts with the given file, or no file. |
| OrderStore.DataBase.Load | src/db.ts:13-25 | Loading a missing file gives the default record as written: no orders, with the last order time set to the time of loading. |
| OrderStore.DataBase.GetOrders | src/db.ts:42-54 | Stored orders come back sorted by price, highest first. A missing file gives none. |
| OrderStore.DataBase.GetLastOrderTime | src/db.ts:30-41 | Returns the stored time. For a missing file it returns the time of reading. |
| OrderStore.DataBase.SaveOrder | src/db.ts:56-62 | The order goes right after every stored order priced at least as high and before every cheaper one, so the result is a permutation of old plus new. The last order time becomes now, and the file now exists. |
| OrderStore.DataBase.DeleteOrder | src/db.ts:64-69 | Exactly the orders whose String(orderId) equals the id are removed, the rest keep their order, and no remaining order has that String(orderId). The last order time becomes now. |
| OrderStore.DeleteAbsentId | src/db.ts:64-69 | Deleting an id that no order's String(orderId) equals leaves the orders unchanged. |
| OrderStore.DeleteAbsentKey | src/db.ts:64-69 | With the corrected filter, deleting a key that no order has leaves the orders unchanged. |
| OrderStore.LocalOrderRepository.constructor | src/repositories/orderRepository/localRepository.ts:8-10 | A repository starts from given sorted orders and a last order time. |
| OrderStore.LocalOrderRepository.UpdateLastTrade | src/repositories/orderRepository/localRepository.ts:17-21 | Only the last order time changes. |
| OrderStore.LocalOrderRepository.SaveOrder | src/repositories/orderRepository/localRepository.ts:28-34 | The order goes right after every order priced at least as high and before every cheaper one (a permutation of old plus new). The last order time is not touched. |
| OrderStore.LocalOrderRepository.DeleteOrder | src/repositories/orderRepository/localRepository.ts:37-47 | Removes exactly the orders whose `id \|\| orderId` is strictly equal to the id, string or number, and keeps every other one in order. Returns the time of deletion. |
| OrderStore.NumericIdNeedsNumericKey | src/repositories/orderRepository/localRepository.ts:39-42 | The comparison is strict. An order whose id is the number n survives deletion by the string "n", and is removed by deletion by n. |
| Dca.FirstCheap | src/strategies/DCA/index.ts:58-63 | Finds the first order whose numeric price plus the offset is below the current price, or shows that no order is cheap. |
| Dca.Decide | src/strategies/DCA/index.ts:38-75 | Both buying and selling happen at the last close, and only a cheap order from the list is sold. A buy with stored orders needs the cheapest one to be more than the offset above the price. It halts exactly when the interval does not parse or a fresh order blocks. A hold means there are stored orders, none of them cheap, and the cheapest is not far enough above the price. |
| Dca.HaltsIffFresh | src/strategies/DCA/index.ts:44-51 | The strategy stops exactly when the last order time (or its fallback) is newer than now minus the interval. |
| Dca.NoStoredTimeNeverBlocks | src/strategies/DCA/index.ts:47 | A missing or zero stored time falls back to two intervals ago, which never blocks. |
| Dca.RecentOrderBlocks | src/strategies/DCA/index.ts:46-51 | An order placed within the last interval stops the strategy. |
| Dca.NoOrdersBuys | src/strategies/DCA/index.ts:52-56 | Once the time gate is open, an empty order list always buys at the last close. |
| Dca.SellsFirstCheap | src/strategies/DCA/index.ts:58-66 | A sell targets the first cheap order in the list. |
| Dca.CheapOrderIsSold | src/strategies/DCA/index.ts:58-66 | If any order is cheap, the strategy either halts on the time gate or sells. It never buys or holds. |
| Dca.NoCheapOrderBuysBelowCheapest | src/strategies/DCA/index.ts:58-75 | With the gate open and no cheap order, the strategy buys exactly when the cheapest order, less the offset, is above the close. Otherwise it holds. |
| Dca.Exec | src/strategies/DCA/index.ts:21-23 | From "init", dispatches readCachedOrders. In any other state, nothing happens. |
| Dca.ReadCachedOrders | src/strategies/DCA/index.ts:24-35 | No candles means nothing happens. Otherwise the machine moves to "analyze" and dispatches makeDesigion with the orders and the last candle. |
| Dca.MakeDecision | src/strategies/DCA/index.ts:38-75 | The machine stays put on a halt and moves to "trade" otherwise. It dispatches exactly the buy or sell that the decision names. |
| Dca.BuyCalls | src/strategies/DCA/index.ts:78-114 | Nothing happens when the balance is at most the limit. Otherwise the call places a buy of limit/price. The placed order is saved right after that, always with a price. When the broker returns no order, the buy is the only call and nothing is saved. With savings supported, the saved order's quantity then goes to savings, and without support nothing does. |
| Dca.BuySavesPlacedOrder | src/strategies/DCA/index.ts:91-103 | The saved order is the placed one. Its price is filled in with the buy price only when the broker left it without one. |
| Dca.SellCalls | src/strategies/DCA/index.ts:115-143 | Without savings support, a short balance aborts. Otherwise the sell of the order's full quantity is placed. With a short balance, that same full quantity is redeemed from savings first, and no other redemption happens. |
| Dca.SellDeletesSoldOrder | src/strategies/DCA/index.ts:124-134 | After a successful sell, the last call deletes the sold order by its `id \|\| orderId` key. |
| Dca.FailedSellKeepsOrder | src/strategies/DCA/index.ts:124-141 | When the broker rejects the sell, the stored order is not deleted. |
| Dca.FailedBuySavesNothing | src/strategies/DCA/index.ts:91-113 | When the broker rejects the buy or returns no order, the only call is the buy itself: nothing is saved and nothing goes to savings. |
| Dca.Buy | src/strategies/DCA/index.ts:78-114 | Makes exactly the calls of BuyCalls. The saved order joins the stored ones (a permutation of old plus new), and the last order time becomes now. Without a save, which includes a buy that returned no order, the store is untouched. |
| Dca.Sell | src/strategies/DCA/index.ts:115-143 | Makes exactly the calls of SellCalls. After a successful sell, the store keeps exactly the orders whose String(orderId) differs from the sold order's key. So the order is gone when its String(orderId) is that key, and stays otherwise. Without a sell, the store is untouched. |
| Dca.MissingFileHaltsAsWritten | src/db.ts:19-22 | With no orders file, the store reports the time of reading as the last order time. For any positive interval, that halts the strategy on every tick. |
| Dca.MissingFileBuys | src/strategies/DCA/index.ts:47-56 | With the corrected default record (no time and no orders), the strategy buys at the last close. |
| Dca.SellKeyMatchesStore | src/strategies/DCA/index.ts:134 | The corrected deletion always removes the sold order. The deletion as written keeps it when its String(orderId) differs from its key. |
| Bollinger.CorridorInfo | src/strategies/bollindgerBands/index.ts:32-46 | The band centre is the moving average of the closes. The edges lie 2σ above and below it, the width is 4σ, and the closing price is the last close. |
| Bollinger.AverageInsideCorridor | src/strategies/bollindgerBands/index.ts:32-46 | With a real standard deviation, bottom ≤ average ≤ top and the width is non-negative. |
| Bollinger.ConstantCorridor | src/strategies/bollindgerBands/index.ts:32-46 | Constant prices give a band of zero width at that price. |
| Bollinger.Closes | src/strategies/bollindgerBands/index.ts:80 | The closes are the candles' closing prices, in order. |
| Bollinger.WindowsShifted | src/strategies/bollindgerBands/index.ts:80-84 | The three windows have the same length, and each is the one before shifted by one candle. |
| Bollinger.OffsetPercent | src/strategies/bollindgerBands/index.ts:102 | An unset or zero setting means 5 percent. |
| Bollinger.Tolerance | src/strategies/bollindgerBands/index.ts:102-103 | The tolerance is non-negative for a non-negative width and percent. |
| Bollinger.TrendOf | src/strategies/bollindgerBands/index.ts:116-123 | BUY exactly on a bottom touch while both recent closes are in the band and the direction changed. SELL needs a top touch and no bottom touch, so BUY wins a tie. |
| Bollinger.InCorridorMeansBetweenEdges | src/strategies/bollindgerBands/index.ts:89-97 | "In corridor" means the close lies between the bottom and top edges. |
| Bollinger.NoTrendWithoutReversal | src/strategies/bollindgerBands/index.ts:108-123 | Without a change of candle direction there is never a trend. |
| Bollinger.NoTrendInsideTolerance | src/strategies/bollindgerBands/index.ts:109-123 | A candle whose body stays strictly inside the band, beyond the tolerance of both edges, gives no trend. |
| Bollinger.FlatMarketNoTrend | src/strategies/bollindgerBands/index.ts:108-123 | In a flat market both edges count as touched, but the direction never changes, so there is no trend. |
| Bollinger.ExtendedLimit | src/strategies/bollindgerBands/index.ts:60 | The strategy asks for two more candles than configured, or leaves the limit unset. |
| Bollinger.Exec | src/strategies/bollindgerBands/index.ts:50-65 | Dispatches getCandleStick with the extended limit, and leaves the state unchanged. |
| Bollinger.GetCandleStick | src/strategies/bollindgerBands/index.ts:67-74 | No candles means nothing happens. Otherwise the machine moves to "analyze" and dispatches detectTrend with the candles. |
| Bollinger.CorridorContains | src/strategies/bollindgerBands/index.ts:89-97 | The in-range check on a fresh two-element array answers whether x lies between the edges. |
| Bollinger.DetectTrend | src/strategies/bollindgerBands/index.ts:79-130 | Fewer than three candles means nothing happens. A trend dispatches makeDesigion with the last close. No trend asks for the next candles. |
| Bollinger.FirstOnSide | src/strategies/bollindgerBands/index.ts:134-135 | Finds the first order in the list on the trend's side: every order before it is on the other side. Otherwise it shows there is none. |
| Bollinger.TradeGate | src/strategies/bollindgerBands/index.ts:132-163 | Failing to fetch orders never blocks, and only an unparsable interval aborts. Waiting needs a first same-side order with a non-zero time less than three intervals before now. |
| Bollinger.NoSameSideOrderGoes | src/strategies/bollindgerBands/index.ts:134-161 | With no order on the trend's side, the strategy trades. |
| Bollinger.RecentSameSideWaits | src/strategies/bollindgerBands/index.ts:144-152 | A same-side order younger than three intervals makes the strategy wait for the next candles. |
| Bollinger.OldOrUntimedSameSideGoes | src/strategies/bollindgerBands/index.ts:144-161 | A first same-side order with no time, a zero time, or an age of at least three intervals lets the strategy trade. |
| Bollinger.MakeDecision | src/strategies/bollindgerBands/index.ts:132-163 | Waiting asks for the next candles and leaves the machine alone. Trading moves to "trade" and dispatches the trend's handler with the price. An interval that does not parse throws, so nothing is called and the machine is left alone. |
| Bollinger.SellCalls | src/strategies/bollindgerBands/index.ts:167-199 | If fetching the lot limit or the quantity throws, only the next candles are asked for. Otherwise a zero or unknown quantity does nothing, and a known quantity is sold at the price, followed by a request for the next candles. |
| Bollinger.BuyCalls | src/strategies/bollindgerBands/index.ts:200-222 | Buys limit/price at the price, then asks for the next candles. |
| FollowPortfolio.ByFigi | src/strategies/followPortfolio/index.ts:79-84 | The snapshot table holds only non-cash positions from the list, each under its own figi, and holds every such figi. |
| FollowPortfolio.ByFigiFinds | src/strategies/followPortfolio/index.ts:79-84 | With distinct figis, a position's figi maps to that very position. |
| FollowPortfolio.PortfolioPriceNonNegative | src/strategies/followPortfolio/index.ts:85-91 | With non-negative prices and quantities, the portfolio price is non-negative. |
| FollowPortfolio.CalcPortfolioProportion | src/strategies/followPortfolio/index.ts:17-34 | The loop builds the proportion table: every non-cash position under its figi, with quantity·price/total as its percent. |
| FollowPortfolio.ChangesMatchSpec | src/strategies/followPortfolio/index.ts:79-104 | The loop keeps exactly two kinds of figi: those in the snapshot or the portfolio but not both, and those whose quantity differs. Each maps to the snapshot's position where the snapshot holds the figi, and to the portfolio's otherwise. |
| FollowPortfolio.StepMatchesSpec | src/strategies/followPortfolio/index.ts:92-103 | One loop step extends the change set exactly as adding that position to the portfolio does. |
| FollowPortfolio.ChangedFigis | src/strategies/followPortfolio/index.ts:79-104 | A figi counts as changed if and only if it is new, gone, or its quantity moved. |
| FollowPortfolio.SameQuantitiesNoChanges | src/strategies/followPortfolio/index.ts:101-107 | Identical holdings produce no changes, so the handler stops. |
| FollowPortfolio.FirstSnapshotChangesAll | src/strategies/followPortfolio/index.ts:95-98 | An empty snapshot marks every position as changed. |
| FollowPortfolio.Exec | src/strategies/followPortfolio/index.ts:38-53 | A failed fetch does nothing. Otherwise the machine moves to "analyzePortfolio" and dispatches detectChangesInPortfolio. |
| FollowPortfolio.DetectChangesInPortfolio | src/strategies/followPortfolio/index.ts:56-118 | An empty portfolio, a missing snapshot or no changes stop the handler. Otherwise it saves the portfolio and dispatches calculatePortfolioProportions with the total price, cash included. |
| FollowPortfolio.TargetTotal | src/strategies/followPortfolio/index.ts:143-155 | The target total is the sum of the five asset-class totals rounded to two decimals: it has at most two decimals and lies within 0.005 of the sum. |
| FollowPortfolio.PriceForLot | src/strategies/followPortfolio/index.ts:162-163 | The price of a lot of a tradable position is never zero. |
| FollowPortfolio.LotsFromPercent | src/strategies/followPortfolio/index.ts:159-169 | The lot count is within one half of percent·total/lotPrice, and zero exactly when that value is below one half. The quantity is lots times items per lot. |
| FollowPortfolio.BuyOrders | src/strategies/followPortfolio/index.ts:172-207 | Buys only source figis whose source percent exceeds the target percent, and only a non-zero number of lots. |
| FollowPortfolio.SellOrders | src/strategies/followPortfolio/index.ts:172-215 | Every figi held only by the target is sold. A shared figi is sold only when its source percent is lower, and only a non-zero number of lots. |
| FollowPortfolio.Whole | src/strategies/followPortfolio/index.ts:209-215 | A target-only position is sold in full: all its lots and its whole quantity. |
| FollowPortfolio.BuyAndSellDisjoint | src/strategies/followPortfolio/index.ts:172-215 | No figi is both bought and sold. |
| FollowPortfolio.SameProportionsNoOrders | src/strategies/followPortfolio/index.ts:172-221 | Equal proportions over the same figis produce no orders, so no trade is dispatched. |
| FollowPortfolio.SmallGapNotTraded | src/strategies/followPortfolio/index.ts:164-205 | A gap worth less than half a lot is neither bought nor sold. |
| FollowPortfolio.NewFigiBought | src/strategies/followPortfolio/index.ts:172-205 | A figi the target lacks is bought for its full source percent. |
| FollowPortfolio.ZeroTargetNoOrders | src/strategies/followPortfolio/index.ts:159-215 | A target holding only cash, with a total of zero, gets no orders, because every gap is worth zero lots. |
| FollowPortfolio.CalculatePortfolioProportions | src/strategies/followPortfolio/index.ts:120-221 | No target portfolio means no orders. Otherwise the orders are exactly BuyOrders and SellOrders. With any order, the machine moves to "trade" and dispatches fulfillTrades; with none, it stays. A zero total is allowed when there is no non-cash position to divide. |
| FollowPortfolio.QueueOrders | src/strategies/followPortfolio/index.ts:172-215 | The two passes over the tables produce exactly BuyOrders and SellOrders. |
| FollowPortfolio.CompareWithTarget | src/strategies/followPortfolio/index.ts:172-207 | The first pass finds exactly the buys and the sells among source figis, each with its gap in lots. The figis left over are exactly those held only by the target. |
| FollowPortfolio.SellLeftovers | src/strategies/followPortfolio/index.ts:209-215 | The second pass adds every leftover target figi to the sells, in full, and keeps the earlier sells. |
| FollowPortfolio.LotsOf | src/strategies/followPortfolio/index.ts:226-227 | Each trade is sent with its lot count under its figi. |
| FollowPortfolio.FulfillTrades | src/strategies/followPortfolio/index.ts:224-264 | All sells go out as one batch, one call per figi with its lots. The buys follow as a second batch only when no sale failed. After a failed sale, no buy is placed. A failure can only come from a sale, so an empty sell batch always lets the buys through. |
| FollowPortfolio.FailedSaleSkipsBuys | src/strategies/followPortfolio/index.ts:228-252 | As written, one rejected sale means no purchase is placed, although the same orders without a failure buy something. |
| FollowPortfolio.FulfillTradesIntended | src/strategies/followPortfolio/index.ts:224-252 | As intended, a rejected sale is logged and all buys still follow all sells, one call per figi with its lots. |
| FollowPortfolio.IntendedAgreesWithoutFailure | src/strategies/followPortfolio/index.ts:224-252 | Without a failed sale, the calls as written are the intended ones. With one, they are only the sells. |
| Backtest.Fragment | src/tradeAPI/backtestApi.ts:48-55 | A fragment is the next `limit` candles from the start, cut short at the end. It is empty past the end. |
| Backtest.FragmentsJoin | src/tradeAPI/backtestApi.ts:48-55 | Two requests in a row hand out one contiguous window. No candle is skipped or repeated. |
| Backtest.Replay | src/tradeAPI/backtestApi.ts:48-55 | n requests hand out the first n·limit candles, in order. |
| Backtest.ReplayCoversAll | src/tradeAPI/backtestApi.ts:48-55 | ⌈len/limit⌉ requests hand out every candle exactly once. |
| Backtest.MinLotSize | src/tradeAPI/backtestApi.ts:57-59 | The configured minimum lot size is used, falling back to 1 when it is unset, NaN or zero. |
| Backtest.BacktestApi.constructor | src/tradeAPI/backtestApi.ts:13-14 | The replay starts at the first candle, with no orders. |
| Backtest.BacktestApi.GetCandleStick | src/tradeAPI/backtestApi.ts:48-55 | Returns the fragment under the cursor and advances the cursor by the limit, even past the end. |
| Backtest.BacktestApi.CreateOrder | src/tradeAPI/backtestApi.ts:19-29 | Past the last candle, the call fails and nothing changes. Otherwise it records an order with the candle's opening time and tags only that candle with the side. |
| Backtest.BacktestApi.Buy | src/tradeAPI/backtestApi.ts:30-32 | Past the last candle, there is no order and nothing changes. Otherwise a buy is recorded with the current candle's opening time, and only that candle is tagged as a buy. |
| Backtest.BacktestApi.Sell | src/tradeAPI/backtestApi.ts:34-36 | Past the last candle, there is no order and nothing changes. Otherwise a sell is recorded with the current candle's opening time, and only that candle is tagged as a sell. |
| Backtest.BacktestApi.GetOrders | src/tradeAPI/backtestApi.ts:66-68 | Returns every recorded order. |
| Backtest.BacktestApi.EmitNextCandles | src/tradeAPI/backtestApi.ts:74-80 | Signals "done" exactly when the cursor has passed the last candle. |
| Backtest.BacktestApi.GetOrderQuantity | src/tradeAPI/backtestApi.ts:61-63 | The order quantity is always one. |
| Backtest.ReplayEnds | src/tradeAPI/backtestApi.ts:48-80 | Requesting until "done" ends, and the fragments together are exactly the candles. |
| Tinkoff.Cached | src/tradeAPI/tinkoff.ts:72-83 | The new order ends the list, and the list stays at most 101 long. Below the cap, the order is appended. The list is always the newest suffix of old plus new. |
| Tinkoff.CacheKeepsNewest | src/tradeAPI/tinkoff.ts:78-82 | At the cap, the oldest order is dropped to make room. |
| Tinkoff.OrderCache.constructor | src/tradeAPI/tinkoff.ts:63 | The cache starts empty. |
| Tinkoff.OrderCache.GetOrdersFromCache | src/tradeAPI/tinkoff.ts:85 | An unknown account has no orders. |
| Tinkoff.OrderCache.SaveOrderToCache | src/tradeAPI/tinkoff.ts:72-83 | Only the account's list changes, to Cached, and the saved order is read back last. |
| Tinkoff.SideOf | src/tradeAPI/tinkoff.ts:379-381 | SELL exactly for "ORDER_DIRECTION_SELL", and BUY otherwise. |
| Tinkoff.OrdersOf | src/tradeAPI/tinkoff.ts:369-386 | Every cached order of the instrument, and only those, is returned in order with its side. |
| Tinkoff.OrdersOfAppend | src/tradeAPI/tinkoff.ts:373-383 | Reading a list in two pieces gives the same orders as reading it whole. |
| Tinkoff.NewestOrderReadLast | src/tradeAPI/tinkoff.ts:72-85 | After a save, the order is read back as the last of its instrument. |
| Tinkoff.TrimCandles | src/tradeAPI/tinkoff.ts:96-99 | Keeps only the newest `limit` candles when there are more. Otherwise all candles are kept. |
| Tinkoff.FindPosition | src/tradeAPI/tinkoff.ts:130 | Finds the first position with the figi, or shows there is none. |
| Tinkoff.GetBalance | src/tradeAPI/tinkoff.ts:129-132 | The balance is the quantity of the first position with the figi, or 0. |
| Tinkoff.GetMinLotSize | src/tradeAPI/tinkoff.ts:350-354 | An unset or NaN setting means 1. |
| Tinkoff.GetOrderQuantity | src/tradeAPI/tinkoff.ts:357-366 | Returns 0 when the limit is NaN or the balance is below it. Otherwise it returns the limit, raised to 1 if smaller. |
| Tinkoff.QuantityWithinBalance | src/tradeAPI/tinkoff.ts:357-366 | With a balance of at least one, the quantity never exceeds it. |
| Tinkoff.Code | src/tradeAPI/tinkoff.ts:31-38 | Candle interval codes run from 0 to 5. |
| Tinkoff.IntervalOf | src/tradeAPI/tinkoff.ts:280-300 | Days map to the day interval and hours to the hour interval. Minutes map only for 1, 5 or 15, and anything else stays unset. |
| Tinkoff.ConfiguredIntervals | src/tradeAPI/tinkoff.ts:280-300 | "1d" maps to the day interval and "1h" to the hour interval, while "30m" has no candle interval. |
| Tinkoff.MaxDays | src/tradeAPI/tinkoff.ts:54-60 | Every known interval has a positive maximum span, and an unset or unspecified interval has none. |
| Tinkoff.CeilDiv | src/tradeAPI/tinkoff.ts:436 | Math.ceil of a quotient: the least q with a ≤ q·b. |
| Tinkoff.DayFrames | src/tradeAPI/tinkoff.ts:436-447 | Consecutive frames of equal width, the i-th covering days [i·w, (i+1)·w). |
| Tinkoff.SplitHistoricalCandlesByIntervals | src/tradeAPI/tinkoff.ts:427-450 | An unknown interval gives no frames, and a span within the maximum gives the request itself. A longer span is split by the loop into ⌈days/max⌉ consecutive frames. |
| Tinkoff.DayFramesCover | src/tradeAPI/tinkoff.ts:436-447 | The frames start at day 0, meet end to end, and cover the whole span while overshooting by less than one frame. |
| Tinkoff.ChunkCount | src/tradeAPI/tinkoff.ts:480-485 | At least one chunk, and together the chunks hold every frame. Above 100 frames, there is no chunk to spare. |
| Tinkoff.Chunk | src/tradeAPI/tinkoff.ts:488-489 | No chunk holds more than 100 frames. |
| Tinkoff.ChunksUpTo | src/tradeAPI/tinkoff.ts:486-492 | The first n chunks are the slices of 100 frames, in order. |
| Tinkoff.FlattenChunksUpTo | src/tradeAPI/tinkoff.ts:486-492 | The first n chunks, joined, are the first n·100 frames. |
| Tinkoff.ChunksPartitionFrames | src/tradeAPI/tinkoff.ts:479-492 | The chunks, joined, are exactly the frames, and each holds at most 100. For a non-empty list none is empty; an empty list gives one empty chunk. |
| Tinkoff.EnqueueChunks | src/tradeAPI/tinkoff.ts:480-492 | The loop enqueues exactly the chunks, in order, behind what was already queued. |

## Left out

- Floating point. Prices and quantities are exact reals. `toFixed(2)` in the time converter and in the target total is modelled as exact rounding to hundredths. The rounding of every other operation is not modelled, including `toFixed(7)` in the moving average.
- Square roots. The Bollinger model takes each window's standard deviation σ as an input. The lemmas that need it assume σ ≥ 0 and σ² equal to the biased (n + 1) variance.
- NaN and undefined. `Number(x)` on a missing or non-numeric value is modelled as `None`, and JS truthiness by `Truthy`.
- TradeIndicators.MovingAverageInRange: proved for exact arithmetic only. It does not model the rounding after each addition.
- Dca.BuyCalls, Bollinger.BuyCalls: require a non-zero price. The source divides by it and would place an order for Infinity.
- FollowPortfolio.CalculatePortfolioProportions: requires a non-zero total for any portfolio that holds non-cash positions, and requires those positions to be tradable (non-zero lots, quantity and price). The source divides by these and would produce Infinity or NaN.
- FollowPortfolio.ChangesMatchSpec: assumes the portfolio lists each figi once. With duplicates, the source's per-position updates depend on their order.
- Dca.SellCalls: requires the sold order to have a numeric quantity (`quantity || origQty`). With NaN, the source sends NaN to the broker.
- Tinkoff.GetOrderQuantity: a limit below 1 is raised to 1 even when the balance is below 1. The model reproduces this and states the balance bound only for balances of at least one.
- Time and dates:
  - the clock (`Date.now()`) is the parameter `now`;
  - ISO date arithmetic in the history split is reduced to day counts;
  - the span in days is a parameter.
- I/O:
  - reading and writing the JSON file is modelled as the `file` field;
  - what the logger writes is left out;
  - the broker SDK calls, the instrument cache, the MongoDB repositories and the Binance and Alpaca adapters are not part of this model.
  - The Tinkoff class's asynchronous methods appear only through their pure parts.
- Concurrency. Handlers are async in the source, and `db.saveOrder` and `db.deleteOrder` are not awaited. The model runs each handler to completion, in order.
  - Inside a batch of `fulfillTrades`, the promises' ordering is not modelled. Only "all sells, then all buys" is.
- The quantity formatter (`getConfigQuantityFormaters`) is the parameter `transform`.
- The backtest limit is a natural number. An undefined or negative limit gives JavaScript slice semantics that are not modelled.
- Sort order of a stored file:
  - a loaded orders file is assumed to be sorted by price, because every write keeps it sorted;
  - orders without a numeric price are not ordered, because the source's comparator is inconsistent on NaN.
- Order ids are strings or whole numbers; fractional numeric ids are not modelled.
- Object keys are plain strings; special keys such as `__proto__` are not modelled.
- Error paths of `db.savePortfolio` and the broker calls are modelled only through the results passed in, such as an unplaced order or an unfetched portfolio.

## Findings

| source | as written | input that shows it | evidently intended | confidence | as-written member | corrected member |
|---|---|---|---|---|---|---|
| src/db.ts:19-22 | a missing orders file reads as `lastOrderTime: Date.now()` | no orders file, interval "1h", read at or after the tick's `now`: the DCA time gate sees an order from "now" and halts, every tick, so the first order is never placed | a missing file means no previous order, so the gate is open and the strategy buys | not executed | Dca.MissingFileHaltsAsWritten | Dca.MissingFileBuys |
| src/db.ts:66 | deletion filters on `String(order.orderId) !== id`, while the DCA sell passes `String(order.id \|\| order.orderId)` | an order with id "a1" and no orderId: the filter compares "undefined" with "a1" and keeps the sold order | delete by the same key the caller uses, `id \|\| orderId` | not executed | OrderStore.DeleteByIdMissed | OrderStore.Remaining |
| src/strategies/followPortfolio/index.ts:228-243 | a failed sale's `.catch` calls `.then` on the value of `logger.log(...)`, which is the logger and not a promise | one sale rejected by the broker: the `.then` call throws a TypeError, the batch of sales rejects, and the purchases are never placed | a failed sale is logged and the purchases still follow the sales | not executed | FollowPortfolio.FailedSaleSkipsBuys | FollowPortfolio.FulfillTradesIntended |
