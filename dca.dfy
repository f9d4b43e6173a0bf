/**
 * The dollar-cost-averaging strategy (src/strategies/DCA/index.ts): a
 * handler table run by the dispatcher. `init` reads the cached orders and
 * the candles, `analyze` decides between buying, selling and waiting, and
 * `trade` talks to the broker and the order store.
 *
 * Every handler also receives (pair, api, userId) first; those pass through
 * unchanged and are left out of the recorded payloads. Collaborator results
 * (orders, candles, balances, the placed order) are parameters, and what a
 * trade handler asks of its collaborators is returned as a list of calls.
 */
module Dca {
  import opened Wrappers
  import opened Entities
  import opened StateMachine
  import opened RealArith
  import ParseTime
  import TimeConverter
  import OrderStore

  /** The handlers of the table, named after their state and event. */
  datatype Handler = InitExec | InitReadCachedOrders | AnalyzeMakeDecision | TradeBuy | TradeSell

  /** The arguments a dispatch passes after (pair, api, userId). */
  datatype Arg = OrdersArg(orders: seq<Order>) | CandleArg(candle: Candle) | PriceArg(price: real) | OrderArg(order: Order)

  /** The strategy's transition table. */
  const Transitions: Table<Handler> := map[
    "init" := map["exec" := InitExec, "readCachedOrders" := InitReadCachedOrders],
    "analyze" := map["makeDesigion" := AnalyzeMakeDecision],
    "trade" := map["buy" := TradeBuy, "sell" := TradeSell]]

  /** The pair settings the strategy reads: the candle interval and the price offset. */
  datatype DcaPair = DcaPair(interval: string, offset: Option<real>)

  /** `pair.offset || 0`. */
  function Offset(pair: DcaPair): real
  {
    if pair.offset.Some? then pair.offset.value else 0.0
  }

  /** `time || validTime - gap`: a missing or zero stored time falls back to one gap before `validTime`. */
  function LastOrderTime(stored: Option<real>, validTime: real, gap: real): real
  {
    if stored.Some? && stored.value != 0.0 then stored.value else validTime - gap
  }

  /** hasFreshOrder: the last order is younger than one interval. */
  predicate HasFreshOrder(now: real, gap: real, stored: Option<real>)
  {
    now - gap < LastOrderTime(stored, now - gap, gap)
  }

  /** An order a sell would close at a profit: a numeric price that, plus the offset, is below `price`. */
  predicate IsCheap(o: Order, offset: real, price: real)
  {
    o.price.Some? && o.price.value + offset < price
  }

  /** `orders.find(...)` from index `i` on: the index of the first cheap order. */
  function FirstCheap(orders: seq<Order>, offset: real, price: real, i: nat): (r: Option<nat>)
    requires i <= |orders|
    ensures r.Some? ==> i <= r.value < |orders| && IsCheap(orders[r.value], offset, price)
    ensures r.Some? ==> forall k :: i <= k < r.value ==> !IsCheap(orders[k], offset, price)
    ensures r.None? ==> forall k :: i <= k < |orders| ==> !IsCheap(orders[k], offset, price)
    decreases |orders| - i
  {
    if i == |orders| then None
    else if IsCheap(orders[i], offset, price) then Some(i)
    else FirstCheap(orders, offset, price, i + 1)
  }

  /**
   * The outcome of `makeDesigion`: stop with nothing changed, or move to
   * "trade" and dispatch a buy, a sell, or nothing.
   */
  datatype Decision = Halt | Hold | BuyAt(price: real) | SellAt(order: Order, price: real)

  /** What `makeDesigion` decides for the last candle, at time `now`, with stored last order time `stored`. */
  function Decide(pair: DcaPair, now: real, stored: Option<real>, orders: seq<Order>, lastCandle: Candle): (d: Decision)
    ensures d.BuyAt? ==> d.price == lastCandle.closingPrice
    ensures d.SellAt? ==> d.price == lastCandle.closingPrice
    ensures d.SellAt? ==> d.order in orders && IsCheap(d.order, Offset(pair), lastCandle.closingPrice)
    ensures d.BuyAt? && orders != [] ==>
      var last := orders[|orders| - 1];
      last.price.Some? && lastCandle.closingPrice < last.price.value - Offset(pair)
    ensures d == Halt <==>
      ParseTime.IntervalMillis(pair.interval).None? || HasFreshOrder(now, ParseTime.IntervalMillis(pair.interval).value, stored)
    ensures d == Hold ==>
      && orders != []
      && (forall k :: 0 <= k < |orders| ==> !IsCheap(orders[k], Offset(pair), lastCandle.closingPrice))
      && var last := orders[|orders| - 1];
         !(last.price.Some? && lastCandle.closingPrice < last.price.value - Offset(pair))
  {
    var price := lastCandle.closingPrice;
    match ParseTime.IntervalMillis(pair.interval)
    case None => Halt
    case Some(gap) =>
      if HasFreshOrder(now, gap, stored) then Halt
      else if orders == [] then BuyAt(price)
      else
        match FirstCheap(orders, Offset(pair), price, 0)
        case Some(i) => SellAt(orders[i], price)
        case None =>
          var last := orders[|orders| - 1];
          if last.price.Some? && last.price.value - Offset(pair) > price then BuyAt(price) else Hold
  }

  /** The handler a decision dispatches, with its arguments. */
  function Dispatched(d: Decision): seq<Invocation<Handler, Arg>>
  {
    match d
    case Halt => []
    case Hold => []
    case BuyAt(p) => [Invocation(TradeBuy, [PriceArg(p)])]
    case SellAt(o, p) => [Invocation(TradeSell, [OrderArg(o), PriceArg(p)])]
  }

  /** A fresh order stops the decision, and only a fresh order or a bad interval does. */
  lemma HaltsIffFresh(pair: DcaPair, now: real, stored: Option<real>, orders: seq<Order>, c: Candle, gap: real)
    requires ParseTime.IntervalMillis(pair.interval) == Some(gap)
    ensures Decide(pair, now, stored, orders, c) == Halt <==> HasFreshOrder(now, gap, stored)
  {
  }

  /** With no stored last order time, the fallback never blocks a trade. */
  lemma NoStoredTimeNeverBlocks(pair: DcaPair, now: real, orders: seq<Order>, c: Candle)
    requires ParseTime.IntervalMillis(pair.interval).Some?
    ensures Decide(pair, now, None, orders, c) != Halt
    ensures Decide(pair, now, Some(0.0), orders, c) != Halt
  {
    var gap := ParseTime.IntervalMillis(pair.interval).value;
    assert !HasFreshOrder(now, gap, None);
    assert !HasFreshOrder(now, gap, Some(0.0));
  }

  /** An order stored less than one interval before `now` blocks every trade. */
  lemma RecentOrderBlocks(pair: DcaPair, now: real, t: real, orders: seq<Order>, c: Candle)
    requires ParseTime.IntervalMillis(pair.interval).Some?
    requires t != 0.0 && now - ParseTime.IntervalMillis(pair.interval).value < t
    ensures Decide(pair, now, Some(t), orders, c) == Halt
  {
  }

  /** With no cached orders and no fresh order, the strategy buys at the last close. */
  lemma NoOrdersBuys(pair: DcaPair, now: real, stored: Option<real>, c: Candle)
    requires ParseTime.IntervalMillis(pair.interval).Some?
    requires !HasFreshOrder(now, ParseTime.IntervalMillis(pair.interval).value, stored)
    ensures Decide(pair, now, stored, [], c) == BuyAt(c.closingPrice)
  {
  }

  /** A sell closes the first cheap order in list order. */
  lemma SellsFirstCheap(pair: DcaPair, now: real, stored: Option<real>, orders: seq<Order>, c: Candle)
    requires Decide(pair, now, stored, orders, c).SellAt?
    ensures exists i ::
              && 0 <= i < |orders|
              && orders[i] == Decide(pair, now, stored, orders, c).order
              && IsCheap(orders[i], Offset(pair), c.closingPrice)
              && forall k :: 0 <= k < i ==> !IsCheap(orders[k], Offset(pair), c.closingPrice)
  {
    var i := FirstCheap(orders, Offset(pair), c.closingPrice, 0).value;
    assert orders[i] == Decide(pair, now, stored, orders, c).order;
  }

  /** When some order is cheap, the decision is never a buy or a hold. */
  lemma CheapOrderIsSold(pair: DcaPair, now: real, stored: Option<real>, orders: seq<Order>, c: Candle, k: nat)
    requires k < |orders| && IsCheap(orders[k], Offset(pair), c.closingPrice)
    ensures Decide(pair, now, stored, orders, c).Halt? || Decide(pair, now, stored, orders, c).SellAt?
  {
  }

  /**
   * With the gate open and no cheap order, the decision turns on the
   * cheapest (last) order alone: a buy exactly when its price, less the
   * offset, is above the close, and otherwise a hold.
   */
  lemma NoCheapOrderBuysBelowCheapest(pair: DcaPair, now: real, stored: Option<real>, orders: seq<Order>, c: Candle)
    requires ParseTime.IntervalMillis(pair.interval).Some?
    requires !HasFreshOrder(now, ParseTime.IntervalMillis(pair.interval).value, stored)
    requires orders != [] && forall k :: 0 <= k < |orders| ==> !IsCheap(orders[k], Offset(pair), c.closingPrice)
    ensures var last := orders[|orders| - 1];
      && (Decide(pair, now, stored, orders, c) == BuyAt(c.closingPrice) <==>
            last.price.Some? && c.closingPrice < last.price.value - Offset(pair))
      && (Decide(pair, now, stored, orders, c) == Hold <==>
            !(last.price.Some? && c.closingPrice < last.price.value - Offset(pair)))
  {
  }

  /** `init.exec`: asks for the cached orders. */
  method Exec(m: Machine<Handler, Arg>)
    requires m.transitions == Transitions
    modifies m
    ensures m.state == old(m.state)
    ensures old(m.state) == "init" ==> m.invoked == old(m.invoked) + [Invocation(InitReadCachedOrders, [])]
    ensures old(m.state) != "init" ==> m.invoked == old(m.invoked)
  {
    var _ := m.Dispatch("readCachedOrders", []);
  }

  /** `init.readCachedOrders`: with candles, moves to "analyze" and passes on the orders and the last candle. */
  method ReadCachedOrders(m: Machine<Handler, Arg>, orders: seq<Order>, candles: seq<Candle>)
    requires m.transitions == Transitions
    modifies m
    ensures candles == [] ==> m.state == old(m.state) && m.invoked == old(m.invoked)
    ensures candles != [] ==> m.state == "analyze"
    ensures candles != [] ==>
              m.invoked == old(m.invoked) + [Invocation(AnalyzeMakeDecision, [OrdersArg(orders), CandleArg(candles[|candles| - 1])])]
  {
    if |candles| == 0 {
      return;
    }
    var lastCandle := candles[|candles| - 1];
    m.ChangeState("analyze");
    var _ := m.Dispatch("makeDesigion", [OrdersArg(orders), CandleArg(lastCandle)]);
  }

  /** `analyze.makeDesigion`: carries out `Decide` on the machine. */
  method MakeDecision(m: Machine<Handler, Arg>, pair: DcaPair, now: real, stored: Option<real>, orders: seq<Order>, lastCandle: Candle)
    requires m.transitions == Transitions
    modifies m
    ensures Decide(pair, now, stored, orders, lastCandle) == Halt ==> m.state == old(m.state)
    ensures Decide(pair, now, stored, orders, lastCandle) != Halt ==> m.state == "trade"
    ensures m.invoked == old(m.invoked) + Dispatched(Decide(pair, now, stored, orders, lastCandle))
  {
    var currentPrice := lastCandle.closingPrice;
    var parsed := ParseTime.Parse(pair.interval);
    if parsed.None? || parsed.value.timeUnit.None? {
      return;
    }
    var converted := TimeConverter.Convert(parsed.value.numericValue as real, parsed.value.timeUnit.value, TimeConverter.MILLISECONDS);
    if converted.Failure? {
      return;
    }
    var timeGap := converted.value;
    var validTime := now - timeGap;
    var lastOrderTime := LastOrderTime(stored, validTime, timeGap);
    if validTime < lastOrderTime {
      return;
    }
    if |orders| == 0 {
      m.ChangeState("trade");
      var _ := m.Dispatch("buy", [PriceArg(currentPrice)]);
      return;
    }
    var closestCheapOrder := FirstCheap(orders, Offset(pair), currentPrice, 0);
    m.ChangeState("trade");
    if closestCheapOrder.Some? {
      var _ := m.Dispatch("sell", [OrderArg(orders[closestCheapOrder.value]), PriceArg(currentPrice)]);
    } else {
      var cheapestOrder := orders[|orders| - 1];
      if cheapestOrder.price.Some? && cheapestOrder.price.value - Offset(pair) > currentPrice {
        var _ := m.Dispatch("buy", [PriceArg(currentPrice)]);
      }
    }
  }

  /**
   * `trade.buy` at `price`: the calls it makes, given the lot limit, the
   * take-currency balance (None when the broker reports none), the quantity
   * formatter, the order the broker returns (None when the call fails or
   * returns nothing) and whether the broker supports savings.
   */
  function BuyCalls(price: real, tradeLimit: real, takeBalance: Option<real>, transform: real -> real,
                    placed: Option<Order>, supportSavings: bool): (calls: seq<ApiCall>)
    requires price != 0.0
    ensures calls == [] <==> takeBalance.Some? && takeBalance.value <= tradeLimit
    ensures calls != [] ==> calls[0] == PlaceBuy(transform(Div(tradeLimit, price)), price)
    ensures forall i :: 0 <= i < |calls| && calls[i].SaveOrder? ==> i == 1 && HasPrice(calls[i].order)
    ensures forall i :: 0 <= i < |calls| && calls[i].BuySaving? ==> i == 2 && supportSavings && calls[1].SaveOrder?
    ensures calls != [] && placed.Some? ==> |calls| >= 2 && calls[1].SaveOrder?
    ensures calls != [] && placed.None? ==> calls == [PlaceBuy(transform(Div(tradeLimit, price)), price)]
    ensures calls != [] && placed.Some? && supportSavings ==> |calls| == 3 && calls[2] == BuySaving(calls[1].order.quantity)
  {
    if takeBalance.Some? && takeBalance.value <= tradeLimit then []
    else
      var place := PlaceBuy(transform(Div(tradeLimit, price)), price);
      match placed
      case None => [place]
      case Some(o) =>
        var saved := if HasPrice(o) then o else o.(price := Some(price));
        [place, SaveOrder(saved)] + (if supportSavings then [BuySaving(saved.quantity)] else [])
  }

  /** A placed order is saved as the broker returned it, with the decision price filled in when it has none. */
  lemma BuySavesPlacedOrder(price: real, tradeLimit: real, takeBalance: Option<real>, transform: real -> real,
                            o: Order, supportSavings: bool)
    requires price != 0.0
    requires !(takeBalance.Some? && takeBalance.value <= tradeLimit)
    ensures var calls := BuyCalls(price, tradeLimit, takeBalance, transform, Some(o), supportSavings);
      && |calls| >= 2
      && calls[1].SaveOrder?
      && calls[1].order.(price := o.price) == o
      && (HasPrice(o) ==> calls[1].order == o)
      && (!HasPrice(o) ==> calls[1].order.price == Some(price))
  {
  }

  /** `Number(order.quantity || order.origQty)`; None stands for NaN. */
  function OrderQuantity(o: Order): Option<real>
  {
    if o.quantity.Some? && o.quantity.value != 0.0 then o.quantity else o.origQty
  }

  /** The make-currency balance is below the quantity to sell (an unknown balance is not). */
  predicate ShortOf(makeBalance: Option<real>, quantity: real)
  {
    makeBalance.Some? && makeBalance.value < quantity
  }

  /**
   * `trade.sell` of `order` at `price`: the calls it makes, given the
   * make-currency balance, the quantity formatter, savings support and
   * whether the broker accepted the sell (a failed sell skips the delete).
   */
  function SellCalls(order: Order, price: real, makeBalance: Option<real>, transform: real -> real,
                     supportSavings: bool, sold: bool): (calls: seq<ApiCall>)
    requires OrderQuantity(order).Some?
    ensures var q := transform(OrderQuantity(order).value);
      && (calls == [] <==> ShortOf(makeBalance, q) && !supportSavings)
      && (calls != [] ==> PlaceSell(q, price) in calls)
      && (forall i :: 0 <= i < |calls| && calls[i].RedeemSaving? ==> i == 0 && calls[i].amount == q && ShortOf(makeBalance, q))
      && (calls != [] && ShortOf(makeBalance, q) ==> calls[0] == RedeemSaving(q))
  {
    var q := transform(OrderQuantity(order).value);
    if ShortOf(makeBalance, q) && !supportSavings then []
    else
      (if ShortOf(makeBalance, q) then [RedeemSaving(q)] else [])
      + [PlaceSell(q, price)]
      + (if sold then [DeleteOrder(DeleteKey(order))] else [])
  }

  /** An accepted sell ends by deleting the sold order from the store, by its `id || orderId` key, right after the sell. */
  lemma SellDeletesSoldOrder(order: Order, price: real, makeBalance: Option<real>, transform: real -> real, supportSavings: bool)
    requires OrderQuantity(order).Some?
    requires !(ShortOf(makeBalance, transform(OrderQuantity(order).value)) && !supportSavings)
    ensures var calls := SellCalls(order, price, makeBalance, transform, supportSavings, true);
      && |calls| >= 2
      && calls[|calls| - 1] == DeleteOrder(DeleteKey(order))
      && calls[|calls| - 2] == PlaceSell(transform(OrderQuantity(order).value), price)
  {
  }

  /** A sell the broker rejects deletes nothing. */
  lemma FailedSellKeepsOrder(order: Order, price: real, makeBalance: Option<real>, transform: real -> real, supportSavings: bool)
    requires OrderQuantity(order).Some?
    ensures forall c :: c in SellCalls(order, price, makeBalance, transform, supportSavings, false) ==> !c.DeleteOrder?
  {
  }

  /** A buy the broker rejects or answers with nothing saves nothing and moves nothing to savings. */
  lemma FailedBuySavesNothing(price: real, tradeLimit: real, takeBalance: Option<real>, transform: real -> real,
                              supportSavings: bool)
    requires price != 0.0
    ensures forall c :: c in BuyCalls(price, tradeLimit, takeBalance, transform, None, supportSavings) ==>
      c.PlaceBuy?
  {
  }

  /** `trade.buy` against the order store: the placed order, as saved, lands in the store stamped with `now`. */
  method Buy(store: OrderStore.DataBase, price: real, tradeLimit: real, takeBalance: Option<real>, transform: real -> real,
             placed: Option<Order>, supportSavings: bool, now: real) returns (calls: seq<ApiCall>)
    requires store.Valid() && price != 0.0
    modifies store
    ensures calls == BuyCalls(price, tradeLimit, takeBalance, transform, placed, supportSavings)
    ensures store.Valid()
    ensures |calls| >= 2 ==> store.file.Some? && calls[1].order in store.file.value.orders
    ensures |calls| >= 2 ==> store.file.value.lastOrderTime == Some(now)
    ensures |calls| >= 2 ==> multiset(store.file.value.orders) == multiset(old(store.Load(now).orders) + [calls[1].order])
    ensures |calls| < 2 ==> store.file == old(store.file)
  {
    calls := BuyCalls(price, tradeLimit, takeBalance, transform, placed, supportSavings);
    if |calls| >= 2 {
      store.SaveOrder(calls[1].order, now);
      assert calls[1].order in multiset(store.file.value.orders);
    }
  }

  /** `trade.sell` against the order store: an accepted sell removes the sold order from the store. */
  method Sell(store: OrderStore.DataBase, order: Order, price: real, makeBalance: Option<real>, transform: real -> real,
              supportSavings: bool, sold: bool, now: real) returns (calls: seq<ApiCall>)
    requires store.Valid() && OrderQuantity(order).Some?
    modifies store
    ensures calls == SellCalls(order, price, makeBalance, transform, supportSavings, sold)
    ensures store.Valid()
    ensures sold && calls != [] ==>
              && store.file.Some?
              && store.file.value.orders == OrderStore.RemainingAsWritten(old(store.Load(now).orders), DeleteKey(order))
              && (JsString(order.orderId) == DeleteKey(order) ==> order !in store.file.value.orders)
              && (order in old(store.Load(now).orders) && JsString(order.orderId) != DeleteKey(order) ==>
                    order in store.file.value.orders)
    ensures !(sold && calls != []) ==> store.file == old(store.file)
  {
    calls := SellCalls(order, price, makeBalance, transform, supportSavings, sold);
    if sold && calls != [] {
      store.DeleteOrder(DeleteKey(order), now);
    }
  }

  /**
   * As written, a missing orders file reads back a last order time of the
   * moment of reading, which is never before `now`: with any positive
   * interval the decision halts, so the first order is never placed.
   */
  lemma MissingFileHaltsAsWritten(store: OrderStore.DataBase, pair: DcaPair, now: real, readAt: real, c: Candle)
    requires store.file.None? && store.Valid()
    requires ParseTime.IntervalMillis(pair.interval).Some? && ParseTime.IntervalMillis(pair.interval).value > 0.0
    requires 0.0 < now <= readAt
    ensures Decide(pair, now, store.GetLastOrderTime(readAt), store.GetOrders(readAt), c) == Halt
  {
  }

  /** With the corrected default, a missing orders file lets the first decision buy. */
  lemma MissingFileBuys(pair: DcaPair, now: real, c: Candle)
    requires ParseTime.IntervalMillis(pair.interval).Some?
    ensures Decide(pair, now, OrderStore.DefaultRecord().lastOrderTime, OrderStore.DefaultRecord().orders, c) == BuyAt(c.closingPrice)
  {
  }

  /**
   * Whatever key the sell passes to the store, the corrected filter removes
   * the sold order, while the as-written filter keeps it whenever its
   * `String(orderId)` differs from that key.
   */
  lemma SellKeyMatchesStore(order: Order, orders: seq<Order>)
    ensures order !in OrderStore.Remaining(orders, DeleteKey(order))
    ensures order in orders && JsString(order.orderId) != DeleteKey(order) ==>
      order in OrderStore.RemainingAsWritten(orders, DeleteKey(order))
  {
  }
}
