/**
 * The Bollinger-corridor strategy (src/strategies/bollindgerBands/index.ts).
 * Corridors of the moving average ± 2σ are computed over three windows of
 * closing prices shifted by one candle each; a trend is signalled when the
 * oldest of the last three candles touches an edge of its corridor, the two
 * later closes stay inside theirs and the candle direction changes.
 *
 * σ comes from `Math.sqrt`, which is not modelled: each window's σ is an
 * input, and the lemmas that need its value assume `IsStdDev` of it.
 * (pair, api, userId) pass through unchanged and are left out of payloads.
 */
module Bollinger {
  import opened Wrappers
  import opened Entities
  import opened StateMachine
  import opened RealArith
  import opened TradeIndicators
  import RangeMath
  import ParseTime

  datatype Handler = InitExec | InitGetCandleStick | AnalyzeDetectTrend | AnalyzeMakeDecision | TradeBuy | TradeSell

  /** The arguments a dispatch passes after (pair, api): the candle limit, the candles, or a trend with its price. */
  datatype Arg = LimitArg(limit: Option<int>) | CandlesArg(candles: seq<Candle>) | TrendArg(trend: Side, price: real) | PriceArg(price: real)

  /** The strategy's transition table; trades are dispatched under the trend's name. */
  const Transitions: Table<Handler> := map[
    "init" := map["exec" := InitExec, "getCandleStick" := InitGetCandleStick],
    "analyze" := map["detectTrend" := AnalyzeDetectTrend, "makeDesigion" := AnalyzeMakeDecision],
    "trade" := map["buy" := TradeBuy, "sell" := TradeSell]]

  /** One corridor: `getCorridorInfo` of a window of closing prices with standard deviation `sigma`. */
  datatype Corridor = Corridor(
    movingAverage: real,
    topEdge: real,
    standardDeviation: real,
    bottomEdge: real,
    closingPrice: real,
    corridorWidth: real)

  function CorridorInfo(closes: seq<real>, sigma: real): (c: Corridor)
    requires |closes| > 0
    ensures c.movingAverage == MovingAverage(closes) && c.standardDeviation == sigma
    ensures c.closingPrice == closes[|closes| - 1]
    ensures c.topEdge - c.movingAverage == c.movingAverage - c.bottomEdge == 2.0 * sigma
    ensures c.corridorWidth == 4.0 * sigma
    ensures sigma >= 0.0 ==> c.bottomEdge <= c.movingAverage <= c.topEdge && c.corridorWidth >= 0.0
  {
    var movingAverage := MovingAverage(closes);
    var topEdge := movingAverage + 2.0 * sigma;
    var bottomEdge := movingAverage - 2.0 * sigma;
    Corridor(movingAverage, topEdge, sigma, bottomEdge, closes[|closes| - 1], topEdge - bottomEdge)
  }

  /** The average of a window lies in its corridor, and in the window's own price range. */
  lemma AverageInsideCorridor(closes: seq<real>, sigma: real)
    requires IsStdDev(closes, sigma)
    ensures var c := CorridorInfo(closes, sigma);
      RangeMath.InRange([c.bottomEdge, c.topEdge], c.movingAverage) && RangeMath.InRange(closes, c.movingAverage)
  {
    var c := CorridorInfo(closes, sigma);
    RangeMath.InRangePair(c.bottomEdge, c.topEdge, c.movingAverage);
    MovingAverageInRange(closes);
  }

  /** A constant window has a corridor collapsed onto its price. */
  lemma ConstantCorridor(closes: seq<real>, sigma: real)
    requires IsStdDev(closes, sigma) && AllEqual(closes, closes[0])
    ensures var c := CorridorInfo(closes, sigma);
      c.topEdge == c.bottomEdge == c.movingAverage == c.closingPrice == closes[0] && c.corridorWidth == 0.0
  {
    StdDevOfConstant(closes, sigma);
    MovingAverageConstant(closes, closes[0]);
  }

  /** The closing prices of the candles, in order. */
  function Closes(candles: seq<Candle>): (s: seq<real>)
    ensures |s| == |candles| && forall i :: 0 <= i < |candles| ==> s[i] == candles[i].closingPrice
  {
    seq(|candles|, i requires 0 <= i < |candles| => candles[i].closingPrice)
  }

  /** The current, previous and before-previous windows: the closes shifted by 2, 1 and 0. */
  function CurrentWindow(closes: seq<real>): seq<real>
    requires |closes| >= 3
  {
    closes[2..]
  }

  function PrevWindow(closes: seq<real>): seq<real>
    requires |closes| >= 3
  {
    closes[1..|closes| - 1]
  }

  function BeforePrevWindow(closes: seq<real>): seq<real>
    requires |closes| >= 3
  {
    closes[..|closes| - 2]
  }

  /** Each window has n - 2 prices, offset by its shift, and ends at the last, second-last and third-last close. */
  lemma WindowsShifted(closes: seq<real>)
    requires |closes| >= 3
    ensures var n := |closes|;
      && |CurrentWindow(closes)| == |PrevWindow(closes)| == |BeforePrevWindow(closes)| == n - 2
      && (forall i :: 0 <= i < n - 2 ==> CurrentWindow(closes)[i] == closes[i + 2])
      && (forall i :: 0 <= i < n - 2 ==> PrevWindow(closes)[i] == closes[i + 1])
      && (forall i :: 0 <= i < n - 2 ==> BeforePrevWindow(closes)[i] == closes[i])
      && CurrentWindow(closes)[n - 3] == closes[n - 1]
      && PrevWindow(closes)[n - 3] == closes[n - 2]
      && BeforePrevWindow(closes)[n - 3] == closes[n - 3]
  {
  }

  /** The standard deviations of the three windows, in the order current, previous, before-previous. */
  datatype Sigmas = Sigmas(current: real, prev: real, beforePrev: real)

  predicate SigmasOf(candles: seq<Candle>, s: Sigmas)
    requires |candles| >= 3
  {
    var closes := Closes(candles);
    && IsStdDev(CurrentWindow(closes), s.current)
    && IsStdDev(PrevWindow(closes), s.prev)
    && IsStdDev(BeforePrevWindow(closes), s.beforePrev)
  }

  /** `pair.corridorOffsetPersent || 5`. */
  function OffsetPercent(setting: Option<real>): (p: real)
    ensures setting.None? || setting.value == 0.0 ==> p == 5.0
    ensures setting.Some? && setting.value != 0.0 ==> p == setting.value
  {
    if setting.Some? && setting.value != 0.0 then setting.value else 5.0
  }

  function Abs(x: real): real
  {
    if x < 0.0 then -x else x
  }

  /** The conditions `detectTrend` combines. */
  datatype Signals = Signals(
    currentInCorridor: bool,
    prevInCorridor: bool,
    differentDirection: bool,
    topIntersection: bool,
    bottomIntersection: bool)

  /** The tolerance: the given percent of the before-previous corridor's width. */
  function Tolerance(width: real, percent: real): (t: real)
    ensures width >= 0.0 && percent >= 0.0 ==> t >= 0.0
  {
    MulNonNegativeIf(width / 100.0, percent);
    Mul(width / 100.0, percent)
  }

  /** A product of non-negatives is non-negative (stated so that `Tolerance` can use it unconditionally). */
  lemma MulNonNegativeIf(a: real, b: real)
    ensures a >= 0.0 && b >= 0.0 ==> Mul(a, b) >= 0.0
  {
    if a >= 0.0 && b >= 0.0 {
      MulNonNegative(a, b);
    }
  }

  /** The signals of the last three candles. */
  function SignalsOf(candles: seq<Candle>, s: Sigmas, setting: Option<real>): Signals
    requires |candles| >= 3
  {
    var n := |candles|;
    var closes := Closes(candles);
    var current := CorridorInfo(CurrentWindow(closes), s.current);
    var prev := CorridorInfo(PrevWindow(closes), s.prev);
    var beforePrev := CorridorInfo(BeforePrevWindow(closes), s.beforePrev);
    var tolerance := Tolerance(beforePrev.corridorWidth, OffsetPercent(setting));
    var candle := candles[n - 3];
    var low := if candle.closingPrice <= candle.openingPrice then candle.closingPrice else candle.openingPrice;
    var high := if candle.closingPrice <= candle.openingPrice then candle.openingPrice else candle.closingPrice;
    Signals(
      RangeMath.InRange([current.bottomEdge, current.topEdge], current.closingPrice),
      RangeMath.InRange([prev.bottomEdge, prev.topEdge], prev.closingPrice),
      CandleDirection(candles[n - 3]) != CandleDirection(candles[n - 2]),
      high > beforePrev.topEdge || Abs(beforePrev.topEdge - high) <= tolerance,
      low < beforePrev.bottomEdge || Abs(beforePrev.bottomEdge - low) <= tolerance)
  }

  /** The trend the signals give; BUY is assigned last, so it wins when both edges are touched. */
  function TrendOf(g: Signals): (t: Option<Side>)
    ensures t.Some? ==> g.currentInCorridor && g.prevInCorridor && g.differentDirection
    ensures t == Some(Buy) <==> g.bottomIntersection && g.currentInCorridor && g.prevInCorridor && g.differentDirection
    ensures t == Some(Sell) <==> g.topIntersection && !g.bottomIntersection && g.currentInCorridor && g.prevInCorridor && g.differentDirection
  {
    var core := g.currentInCorridor && g.prevInCorridor && g.differentDirection;
    if g.bottomIntersection && core then Some(Buy)
    else if g.topIntersection && core then Some(Sell)
    else None
  }

  /** The trend of the last three candles. */
  function Trend(candles: seq<Candle>, s: Sigmas, setting: Option<real>): Option<Side>
    requires |candles| >= 3
  {
    TrendOf(SignalsOf(candles, s, setting))
  }

  /** The two later closes are inside their corridors exactly when they lie between its edges. */
  lemma InCorridorMeansBetweenEdges(candles: seq<Candle>, s: Sigmas, setting: Option<real>)
    requires |candles| >= 3 && SigmasOf(candles, s)
    ensures var n := |candles|;
      var closes := Closes(candles);
      var current := CorridorInfo(CurrentWindow(closes), s.current);
      var prev := CorridorInfo(PrevWindow(closes), s.prev);
      && (SignalsOf(candles, s, setting).currentInCorridor <==> current.bottomEdge <= candles[n - 1].closingPrice <= current.topEdge)
      && (SignalsOf(candles, s, setting).prevInCorridor <==> prev.bottomEdge <= candles[n - 2].closingPrice <= prev.topEdge)
  {
    var closes := Closes(candles);
    var current := CorridorInfo(CurrentWindow(closes), s.current);
    var prev := CorridorInfo(PrevWindow(closes), s.prev);
    RangeMath.InRangePair(current.bottomEdge, current.topEdge, current.closingPrice);
    RangeMath.InRangePair(prev.bottomEdge, prev.topEdge, prev.closingPrice);
    WindowsShifted(closes);
  }

  /** Without a change of direction between candles n-3 and n-2 there is no trend. */
  lemma NoTrendWithoutReversal(candles: seq<Candle>, s: Sigmas, setting: Option<real>)
    requires |candles| >= 3
    requires CandleDirection(candles[|candles| - 3]) == CandleDirection(candles[|candles| - 2])
    ensures Trend(candles, s, setting).None?
  {
  }

  /** A before-previous candle whose body keeps more than the tolerance away from both edges signals nothing. */
  lemma NoTrendInsideTolerance(candles: seq<Candle>, s: Sigmas, setting: Option<real>)
    requires |candles| >= 3 && s.beforePrev >= 0.0 && OffsetPercent(setting) >= 0.0
    requires var n := |candles|;
      var beforePrev := CorridorInfo(BeforePrevWindow(Closes(candles)), s.beforePrev);
      var tolerance := Tolerance(beforePrev.corridorWidth, OffsetPercent(setting));
      var candle := candles[n - 3];
      && beforePrev.bottomEdge + tolerance < candle.openingPrice < beforePrev.topEdge - tolerance
      && beforePrev.bottomEdge + tolerance < candle.closingPrice < beforePrev.topEdge - tolerance
    ensures Trend(candles, s, setting).None?
  {
  }

  /** Every candle flat at one price `p`. */
  predicate Flat(candles: seq<Candle>, p: real)
  {
    forall i :: 0 <= i < |candles| ==> candles[i].openingPrice == p && candles[i].closingPrice == p
  }

  /**
   * A flat market touches both collapsed edges and stays inside both later
   * corridors, yet signals no trend, because its candles never change direction.
   */
  lemma FlatMarketNoTrend(candles: seq<Candle>, s: Sigmas, setting: Option<real>, p: real)
    requires |candles| >= 3 && SigmasOf(candles, s) && Flat(candles, p)
    ensures var g := SignalsOf(candles, s, setting);
      && g.topIntersection && g.bottomIntersection
      && g.currentInCorridor && g.prevInCorridor
      && !g.differentDirection
    ensures Trend(candles, s, setting).None?
  {
    var closes := Closes(candles);
    var n := |candles|;
    WindowsShifted(closes);
    assert AllEqual(CurrentWindow(closes), p);
    assert AllEqual(PrevWindow(closes), p);
    assert AllEqual(BeforePrevWindow(closes), p);
    ConstantCorridor(CurrentWindow(closes), s.current);
    ConstantCorridor(PrevWindow(closes), s.prev);
    ConstantCorridor(BeforePrevWindow(closes), s.beforePrev);
    var beforePrev := CorridorInfo(BeforePrevWindow(closes), s.beforePrev);
    MulOne(0.0);
    assert Tolerance(beforePrev.corridorWidth, OffsetPercent(setting)) == 0.0;
    RangeMath.InRangePair(p, p, p);
  }

  /** `pair.candlesConfig.limit + 2`; a missing limit stays missing (NaN). */
  function ExtendedLimit(limit: Option<int>): (r: Option<int>)
    ensures r.Some? <==> limit.Some?
    ensures r.Some? ==> r.value == limit.value + 2
  {
    if limit.Some? then Some(limit.value + 2) else None
  }

  /** `init.exec`: asks for two more candles than configured, so that three corridors can be drawn. */
  method Exec(m: Machine<Handler, Arg>, limit: Option<int>)
    requires m.transitions == Transitions
    modifies m
    ensures m.state == old(m.state)
    ensures m.invoked == old(m.invoked) + Called(Transitions, old(m.state), "getCandleStick", [LimitArg(ExtendedLimit(limit))])
  {
    var _ := m.Dispatch("getCandleStick", [LimitArg(ExtendedLimit(limit))]);
  }

  /** `init.getCandleStick`: with candles, moves to "analyze" and passes them to `detectTrend`. */
  method GetCandleStick(m: Machine<Handler, Arg>, candles: seq<Candle>)
    requires m.transitions == Transitions
    modifies m
    ensures candles == [] ==> m.state == old(m.state) && m.invoked == old(m.invoked)
    ensures candles != [] ==> m.state == "analyze"
    ensures candles != [] ==> m.invoked == old(m.invoked) + [Invocation(AnalyzeDetectTrend, [CandlesArg(candles)])]
  {
    if |candles| == 0 {
      return;
    }
    m.ChangeState("analyze");
    var _ := m.Dispatch("detectTrend", [CandlesArg(candles)]);
  }

  /** `isInRange([bottom, top], x)`, run on a fresh two-element array. */
  method CorridorContains(c: Corridor, x: real) returns (r: bool)
    ensures r <==> RangeMath.InRange([c.bottomEdge, c.topEdge], x)
  {
    var edges := new real[2];
    edges[0], edges[1] := c.bottomEdge, c.topEdge;
    assert edges[..] == [c.bottomEdge, c.topEdge];
    r := RangeMath.IsInRange(edges, x);
  }

  /**
   * `analyze.detectTrend`: fewer than three candles make the empty-window
   * deviation throw, so nothing happens; a trend is passed to `makeDesigion`
   * with the last close; otherwise the next candles are requested.
   */
  method DetectTrend(m: Machine<Handler, Arg>, candles: seq<Candle>, s: Sigmas, setting: Option<real>) returns (calls: seq<ApiCall>)
    requires m.transitions == Transitions
    modifies m
    ensures m.state == old(m.state)
    ensures |candles| < 3 ==> m.invoked == old(m.invoked) && calls == []
    ensures |candles| >= 3 && Trend(candles, s, setting).Some? ==>
              && calls == []
              && m.invoked == old(m.invoked) + Called(Transitions, old(m.state), "makeDesigion",
                                                      [TrendArg(Trend(candles, s, setting).value, candles[|candles| - 1].closingPrice)])
    ensures |candles| >= 3 && Trend(candles, s, setting).None? ==> calls == [EmitNextCandles] && m.invoked == old(m.invoked)
  {
    calls := [];
    if |candles| < 3 {
      return;
    }
    var n := |candles|;
    var closes := Closes(candles);
    var current := CorridorInfo(CurrentWindow(closes), s.current);
    var prev := CorridorInfo(PrevWindow(closes), s.prev);
    var beforePrev := CorridorInfo(BeforePrevWindow(closes), s.beforePrev);
    var currentIn := CorridorContains(current, current.closingPrice);
    var prevIn := CorridorContains(prev, prev.closingPrice);
    var tolerance := Tolerance(beforePrev.corridorWidth, OffsetPercent(setting));
    var candle := candles[n - 3];
    var different := CandleDirection(candles[n - 3]) != CandleDirection(candles[n - 2]);
    var low, high := candle.closingPrice, candle.openingPrice;
    if high < low {
      low, high := high, low;
    }
    var top := high > beforePrev.topEdge || Abs(beforePrev.topEdge - high) <= tolerance;
    var bottom := low < beforePrev.bottomEdge || Abs(beforePrev.bottomEdge - low) <= tolerance;
    var trend: Option<Side> := None;
    if top && currentIn && prevIn && different {
      trend := Some(Sell);
    }
    if bottom && currentIn && prevIn && different {
      trend := Some(Buy);
    }
    assert trend == Trend(candles, s, setting);
    if trend.Some? {
      var _ := m.Dispatch("makeDesigion", [TrendArg(trend.value, current.closingPrice)]);
    } else {
      calls := [EmitNextCandles];
    }
  }

  /** The order `makeDesigion` looks at: the first one on the trend's side. */
  function FirstOnSide(orders: seq<Order>, side: Side): (r: Option<Order>)
    ensures r.Some? ==> r.value in orders && r.value.side == side
    ensures r.None? ==> forall o :: o in orders ==> o.side != side
    ensures r.Some? ==> exists i :: 0 <= i < |orders| && orders[i] == r.value
                                    && forall j :: 0 <= j < i ==> orders[j].side != side
  {
    if orders == [] then None
    else if orders[0].side == side then Some(orders[0])
    else FirstOnSide(orders[1..], side)
  }

  /** The outcome of `makeDesigion`: a throw (nothing happens), waiting for the next candles, or trading. */
  datatype Gate = Abort | Wait | Go

  /**
   * The duplicate-trend gate: an order on the same side younger than three
   * intervals makes the strategy wait. `orders` is None when fetching them failed.
   */
  function TradeGate(interval: string, now: real, trend: Side, orders: Option<seq<Order>>): (g: Gate)
    ensures orders.None? ==> g == Go
    ensures g == Abort ==> ParseTime.IntervalMillis(interval).None?
    ensures g == Wait ==>
      && orders.Some? && FirstOnSide(orders.value, trend).Some?
      && var t := FirstOnSide(orders.value, trend).value.time;
         && t.Some? && t.value != 0.0
         && ParseTime.IntervalMillis(interval).Some?
         && now - t.value < 3.0 * ParseTime.IntervalMillis(interval).value
  {
    var last := if orders.Some? then FirstOnSide(orders.value, trend) else None;
    if last.Some? && last.value.time.Some? && last.value.time.value != 0.0 then
      match ParseTime.IntervalMillis(interval)
      case None => Abort
      case Some(gap) => if now - last.value.time.value < 3.0 * gap then Wait else Go
    else Go
  }

  /** With no order on the trend's side, the gate is always open. */
  lemma NoSameSideOrderGoes(interval: string, now: real, trend: Side, orders: seq<Order>)
    requires forall o :: o in orders ==> o.side != trend
    ensures TradeGate(interval, now, trend, Some(orders)) == Go
  {
  }

  /** An order on the trend's side placed less than three intervals ago, and first on that side, holds the strategy back. */
  lemma RecentSameSideWaits(interval: string, now: real, trend: Side, orders: seq<Order>, t: real)
    requires ParseTime.IntervalMillis(interval).Some?
    requires FirstOnSide(orders, trend).Some? && FirstOnSide(orders, trend).value.time == Some(t) && t != 0.0
    requires now - t < 3.0 * ParseTime.IntervalMillis(interval).value
    ensures TradeGate(interval, now, trend, Some(orders)) == Wait
  {
  }

  /**
   * The first same-side order lets the strategy trade when it has no time
   * (or time 0), or when it is at least three intervals old.
   */
  lemma OldOrUntimedSameSideGoes(interval: string, now: real, trend: Side, orders: seq<Order>)
    requires FirstOnSide(orders, trend).Some?
    requires var t := FirstOnSide(orders, trend).value.time;
      || t.None? || t.value == 0.0
      || (ParseTime.IntervalMillis(interval).Some? && now - t.value >= 3.0 * ParseTime.IntervalMillis(interval).value)
    ensures TradeGate(interval, now, trend, Some(orders)) == Go
  {
  }

  /** `analyze.makeDesigion`: waits on a recent same-side order, otherwise moves to "trade" and dispatches the trend. */
  method MakeDecision(m: Machine<Handler, Arg>, interval: string, now: real, trend: Side, price: real, orders: Option<seq<Order>>)
    returns (calls: seq<ApiCall>)
    requires m.transitions == Transitions
    modifies m
    ensures TradeGate(interval, now, trend, orders) != Go ==> m.state == old(m.state) && m.invoked == old(m.invoked)
    ensures TradeGate(interval, now, trend, orders) == Wait <==> calls == [EmitNextCandles]
    ensures TradeGate(interval, now, trend, orders) == Abort ==> calls == []
    ensures TradeGate(interval, now, trend, orders) == Go ==> m.state == "trade" && calls == []
    ensures TradeGate(interval, now, trend, orders) == Go ==>
      m.invoked == old(m.invoked) + [Invocation(if trend == Buy then TradeBuy else TradeSell, [PriceArg(price)])]
  {
    calls := [];
    var lastOrder := if orders.Some? then FirstOnSide(orders.value, trend) else None;
    if lastOrder.Some? && lastOrder.value.time.Some? && lastOrder.value.time.value != 0.0 {
      var gap := ParseTime.IntervalMillis(interval);
      if gap.None? {
        return;
      }
      var orderLifetime := now - lastOrder.value.time.value;
      if orderLifetime < 3.0 * gap.value {
        calls := [EmitNextCandles];
        return;
      }
    }
    m.ChangeState("trade");
    var _ := m.Dispatch(SideEvent(trend), [PriceArg(price)]);
  }

  /**
   * `trade.sell` at `price`: the broker's order quantity (None for NaN or
   * undefined) must be non-zero, else the handler returns before asking for
   * the next candles. `failed` says that fetching the lot limit or the
   * quantity threw: the error is caught and only the next candles are asked for.
   */
  function SellCalls(price: real, failed: bool, orderQuantity: Option<real>, transform: real -> real): (calls: seq<ApiCall>)
    ensures failed ==> calls == [EmitNextCandles]
    ensures calls == [] <==> !failed && (orderQuantity.None? || orderQuantity.value == 0.0)
    ensures !failed && calls != [] ==> calls == [PlaceSell(transform(orderQuantity.value), price), EmitNextCandles]
    ensures calls != [] ==> calls[|calls| - 1] == EmitNextCandles
  {
    if failed then [EmitNextCandles]
    else if orderQuantity.None? || orderQuantity.value == 0.0 then []
    else [PlaceSell(transform(orderQuantity.value), price), EmitNextCandles]
  }

  /** `trade.buy` at `price`: one lot limit's worth, then the next candles, whether or not the broker accepts. */
  function BuyCalls(price: real, tradeLimit: real, transform: real -> real): (calls: seq<ApiCall>)
    requires price != 0.0
    ensures |calls| == 2 && calls[1] == EmitNextCandles
    ensures calls[0] == PlaceBuy(transform(Div(tradeLimit, price)), price)
  {
    [PlaceBuy(transform(Div(tradeLimit, price)), price), EmitNextCandles]
  }
}
