/**
 * The backtest trade API (src/tradeAPI/backtestApi.ts): it replays a fixed
 * array of candles through a cursor, hands out one fragment per request,
 * records every order it is asked to place and tags the candle the order
 * was placed on.
 */
module Backtest {
  import opened Wrappers
  import opened Entities

  /** API_EVENTS: what `emitNextCandles` signals. */
  datatype Signal = AllCandlesLoaded | LoadNextChunk

  function Min(a: int, b: int): int
  {
    if a <= b then a else b
  }

  /** `candles.slice(start, start + limit)`: the window clipped at the end. */
  function Fragment(candles: seq<Candle>, start: nat, limit: nat): (r: seq<Candle>)
    ensures |r| <= limit
    ensures start + limit <= |candles| ==> |r| == limit
    ensures start >= |candles| ==> r == []
    ensures forall i :: 0 <= i < |r| ==> start + i < |candles| && r[i] == candles[start + i]
  {
    candles[Min(start, |candles|)..Min(start + limit, |candles|)]
  }

  /** Two requests in a row hand out one longer window: nothing is skipped or repeated. */
  lemma FragmentsJoin(candles: seq<Candle>, start: nat, first: nat, second: nat)
    ensures Fragment(candles, start, first) + Fragment(candles, start + first, second)
         == Fragment(candles, start, first + second)
  {
    var lo, mid, hi := Min(start, |candles|), Min(start + first, |candles|), Min(start + first + second, |candles|);
    assert candles[lo..hi] == candles[lo..mid] + candles[mid..hi];
  }

  /** `n` requests of `limit` candles from the start hand out the first `n * limit` candles, in order. */
  lemma {:induction false} Replay(candles: seq<Candle>, limit: nat, n: nat)
    ensures Replayed(candles, limit, n) == candles[..Min(n * limit, |candles|)]
  {
    if n > 0 {
      Replay(candles, limit, n - 1);
      FragmentsJoin(candles, 0, (n - 1) * limit, limit);
    }
  }

  /** The fragments of `n` requests of `limit` candles, joined. */
  function Replayed(candles: seq<Candle>, limit: nat, n: nat): seq<Candle>
  {
    if n == 0 then [] else Replayed(candles, limit, n - 1) + Fragment(candles, (n - 1) * limit, limit)
  }

  /** Enough requests hand out every candle exactly once. */
  lemma ReplayCoversAll(candles: seq<Candle>, limit: nat)
    requires limit > 0
    ensures Replayed(candles, limit, (|candles| + limit - 1) / limit) == candles
  {
    var n := (|candles| + limit - 1) / limit;
    Replay(candles, limit, n);
    assert n * limit >= |candles|;
  }

  /** `minLotQuantity || 1`: None stands for a missing or NaN setting. */
  function MinLotSize(minLotQuantity: Option<real>): (r: real)
    ensures r != 0.0
    ensures minLotQuantity.Some? && minLotQuantity.value != 0.0 ==> r == minLotQuantity.value
    ensures minLotQuantity.None? || minLotQuantity.value == 0.0 ==> r == 1.0
  {
    if minLotQuantity.Some? && minLotQuantity.value != 0.0 then minLotQuantity.value else 1.0
  }

  class BacktestApi {
    /** `config.candlesCache`: the candles being replayed. */
    const candlesCache: array<Candle>
    /** `candelsStickFragmentStartIdx`: where the next fragment starts. */
    var cursor: nat
    /** Every order placed so far, oldest first. */
    var orders: seq<Order>

    constructor (candles: array<Candle>)
      ensures candlesCache == candles && cursor == 0 && orders == []
    {
      candlesCache := candles;
      cursor := 0;
      orders := [];
    }

    /**
     * `getCandleStick`: the next `limit` candles, clipped at the end; the
     * cursor moves on by `limit` even past the end.
     */
    method GetCandleStick(limit: nat) returns (fragment: seq<Candle>)
      modifies this`cursor
      ensures fragment == Fragment(candlesCache[..], old(cursor), limit)
      ensures cursor == old(cursor) + limit && orders == old(orders)
    {
      var start := cursor;
      var end := start + limit;
      fragment := candlesCache[Min(start, candlesCache.Length)..Min(end, candlesCache.Length)];
      cursor := end;
    }

    /**
     * `createOrder`: records an order on the candle under the cursor, with
     * that candle's opening time, and tags the candle with the side. None
     * stands for the throw when the cursor is past the last candle; then
     * nothing changes.
     */
    method CreateOrder(side: Side) returns (order: Option<Order>)
      modifies this`orders, candlesCache
      ensures cursor == old(cursor)
      ensures old(cursor) >= candlesCache.Length ==>
                order.None? && orders == old(orders) && candlesCache[..] == old(candlesCache[..])
      ensures old(cursor) < candlesCache.Length ==>
                && order == Some(Order(None, None, side, old(candlesCache[cursor]).openingTime, None, None, None))
                && orders == old(orders) + [order.value]
                && candlesCache[..] == old(candlesCache[..])[cursor := old(candlesCache[cursor]).(tradeSide := Some(side))]
    {
      if cursor >= candlesCache.Length {
        return None;
      }
      var current := candlesCache[cursor];
      candlesCache[cursor] := current.(tradeSide := Some(side));
      var o := Order(None, None, side, current.openingTime, None, None, None);
      orders := orders + [o];
      order := Some(o);
    }

    /** `buy`: a buy order on the current candle; quantity and price play no part. */
    method Buy(quantity: real, price: real) returns (order: Option<Order>)
      modifies this`orders, candlesCache
      ensures cursor == old(cursor)
      ensures old(cursor) < candlesCache.Length <==> order.Some?
      ensures order.None? ==> orders == old(orders) && candlesCache[..] == old(candlesCache[..])
      ensures order.Some? ==>
                && order.value == Order(None, None, Side.Buy, old(candlesCache[cursor]).openingTime, None, None, None)
                && orders == old(orders) + [order.value]
                && candlesCache[..] == old(candlesCache[..])[cursor := old(candlesCache[cursor]).(tradeSide := Some(Side.Buy))]
      ensures order.Some? ==> candlesCache[cursor].tradeSide == Some(Side.Buy)
      ensures forall i :: 0 <= i < candlesCache.Length && i != cursor ==> candlesCache[i] == old(candlesCache[i])
    {
      order := CreateOrder(Side.Buy);
    }

    /** `sell`: a sell order on the current candle; quantity and price play no part. */
    method Sell(quantity: real, price: real) returns (order: Option<Order>)
      modifies this`orders, candlesCache
      ensures cursor == old(cursor)
      ensures old(cursor) < candlesCache.Length <==> order.Some?
      ensures order.None? ==> orders == old(orders) && candlesCache[..] == old(candlesCache[..])
      ensures order.Some? ==>
                && order.value == Order(None, None, Side.Sell, old(candlesCache[cursor]).openingTime, None, None, None)
                && orders == old(orders) + [order.value]
                && candlesCache[..] == old(candlesCache[..])[cursor := old(candlesCache[cursor]).(tradeSide := Some(Side.Sell))]
      ensures order.Some? ==> candlesCache[cursor].tradeSide == Some(Side.Sell)
      ensures forall i :: 0 <= i < candlesCache.Length && i != cursor ==> candlesCache[i] == old(candlesCache[i])
    {
      order := CreateOrder(Side.Sell);
    }

    /** `getOrders`: every order placed, in the order placed; the pair plays no part. */
    function GetOrders(): (r: seq<Order>)
      reads this
      ensures r == orders
    {
      orders
    }

    /** `emitNextCandles`: "done" once the cursor has run past the candles, "loadNext" before. */
    function EmitNextCandles(): (s: Signal)
      reads this
      ensures s == AllCandlesLoaded <==> cursor >= candlesCache.Length
    {
      if cursor >= candlesCache.Length then AllCandlesLoaded else LoadNextChunk
    }

    /** `getOrderQuantity`: always one. */
    function GetOrderQuantity(price: real, limit: real): (r: real)
      ensures r == 1.0
    {
      1.0
    }
  }

  /** A replay from the first candle ends: after enough requests the API signals that every candle is loaded. */
  method ReplayEnds(api: BacktestApi, limit: nat) returns (fragments: seq<Candle>)
    requires api.cursor == 0 && limit > 0
    modifies api
    ensures api.EmitNextCandles() == AllCandlesLoaded
    ensures fragments == api.candlesCache[..]
  {
    fragments := [];
    var n := 0;
    while api.EmitNextCandles() == LoadNextChunk
      invariant api.cursor == n * limit
      invariant fragments == Replayed(api.candlesCache[..], limit, n)
      decreases api.candlesCache.Length - api.cursor
    {
      var next := api.GetCandleStick(limit);
      fragments := fragments + next;
      n := n + 1;
    }
    Replay(api.candlesCache[..], limit, n);
    assert api.candlesCache[..Min(n * limit, api.candlesCache.Length)] == api.candlesCache[..];
  }
}
