/**
 * The pure and bookkeeping parts of the Tinkoff trade API
 * (src/tradeAPI/tinkoff.ts): the bounded per-account cache of placed orders,
 * reading orders back from it, trimming fetched candles, balances and order
 * sizes, the mapping of a configured interval to a candle interval, and the
 * splitting of a historical request into day frames and of the frames into
 * per-minute chunks. Broker calls and dates are outside the model; their
 * results are parameters.
 */
module Tinkoff {
  import opened Wrappers
  import opened Entities
  import ParseTime
  import TimeConverter
  import DataStructures

  /** An order as the broker returns it, stamped with the time it was cached. */
  datatype BrokerOrder = BrokerOrder(figi: Option<string>, direction: string, time: real)

  /** An order read back from the cache, with its trade side. */
  datatype SidedOrder = SidedOrder(order: BrokerOrder, side: Side)

  const MAX_ORDERS_IN_CACHE := 100

  /**
   * One account's cached orders after `saveOrderToCache`: the oldest is
   * dropped when there are more than the maximum already, then the new one
   * is appended.
   */
  function Cached(list: seq<BrokerOrder>, order: BrokerOrder): (r: seq<BrokerOrder>)
    ensures |r| > 0 && r[|r| - 1] == order
    ensures |list| <= MAX_ORDERS_IN_CACHE + 1 ==> |r| <= MAX_ORDERS_IN_CACHE + 1
    ensures |list| <= MAX_ORDERS_IN_CACHE ==> r == list + [order]
    ensures |r| <= |list| + 1 && r == (list + [order])[|list| + 1 - |r|..]
  {
    var kept := if |list| > MAX_ORDERS_IN_CACHE then list[1..] else list;
    assert list + [order] == list[..|list| - |kept|] + (kept + [order]);
    kept + [order]
  }

  /** A full cache keeps the newest orders: the new one and the ones just before it. */
  lemma CacheKeepsNewest(list: seq<BrokerOrder>, order: BrokerOrder)
    requires |list| == MAX_ORDERS_IN_CACHE + 1
    ensures |Cached(list, order)| == MAX_ORDERS_IN_CACHE + 1
    ensures Cached(list, order) == list[1..] + [order]
  {
  }

  /** `ORDERS_CACHE` with the two functions over it. */
  class OrderCache {
    /** The cached orders of each account, oldest first. */
    var orders: map<string, seq<BrokerOrder>>

    constructor ()
      ensures orders == map[] && Valid()
    {
      orders := map[];
    }

    /** No account holds more than one order over the maximum. */
    predicate Valid()
      reads this
    {
      forall account :: account in orders ==> |orders[account]| <= MAX_ORDERS_IN_CACHE + 1
    }

    /** `getOrdersFromCache`: the account's orders, none for an unknown account. */
    function GetOrdersFromCache(account: string): (r: seq<BrokerOrder>)
      reads this
      ensures account in orders ==> r == orders[account]
      ensures account !in orders ==> r == []
    {
      if account in orders then orders[account] else []
    }

    /** `saveOrderToCache`: only the account's list changes, and it stays bounded. */
    method SaveOrderToCache(order: BrokerOrder, account: string)
      requires Valid()
      modifies this
      ensures Valid()
      ensures orders == old(orders)[account := Cached(old(GetOrdersFromCache(account)), order)]
      ensures GetOrdersFromCache(account)[|GetOrdersFromCache(account)| - 1] == order
    {
      var list := if account in orders then orders[account] else [];
      if |list| > MAX_ORDERS_IN_CACHE {
        list := list[1..];
      }
      orders := orders[account := list + [order]];
    }
  }

  /** The trade side of a broker direction: only ORDER_DIRECTION_SELL is a sale. */
  function SideOf(direction: string): (s: Side)
    ensures s == Sell <==> direction == "ORDER_DIRECTION_SELL"
  {
    if direction == "ORDER_DIRECTION_SELL" then Sell else Buy
  }

  /** `getOrders`: the cached orders of the instrument's figi, in cache order, each with its side. */
  function OrdersOf(cached: seq<BrokerOrder>, figi: Option<string>): (r: seq<SidedOrder>)
    ensures |r| <= |cached|
    ensures forall i :: 0 <= i < |r| ==>
              && r[i].order in cached && r[i].order.figi == figi
              && r[i].side == SideOf(r[i].order.direction)
    ensures forall o :: o in cached && o.figi == figi ==> SidedOrder(o, SideOf(o.direction)) in r
  {
    if cached == [] then []
    else
      var last := cached[|cached| - 1];
      var init := OrdersOf(cached[..|cached| - 1], figi);
      init + (if last.figi == figi then [SidedOrder(last, SideOf(last.direction))] else [])
  }

  /** Reading back keeps the cache's order: the orders of a longer cache extend those of a shorter one. */
  lemma {:induction false} OrdersOfAppend(cached: seq<BrokerOrder>, more: seq<BrokerOrder>, figi: Option<string>)
    ensures OrdersOf(cached + more, figi) == OrdersOf(cached, figi) + OrdersOf(more, figi)
    decreases |more|
  {
    if more == [] {
      assert cached + more == cached;
    } else {
      var init, last := more[..|more| - 1], more[|more| - 1];
      assert (cached + more)[..|cached + more| - 1] == cached + init;
      OrdersOfAppend(cached, init, figi);
    }
  }

  /** An order just placed for the figi is the last one read back. */
  lemma NewestOrderReadLast(cache: seq<BrokerOrder>, order: BrokerOrder)
    requires order.figi.Some?
    ensures var r := OrdersOf(Cached(cache, order), order.figi);
      |r| > 0 && r[|r| - 1] == SidedOrder(order, SideOf(order.direction))
  {
    var c := Cached(cache, order);
    assert c == c[..|c| - 1] + [order];
  }

  /**
   * The candle trimming in `getCandles`: with a truthy limit that the
   * candles exceed, the oldest are cut so that the newest `limit` remain
   * (none for a negative limit); otherwise all are kept.
   */
  function TrimCandles(candles: seq<Candle>, limit: Option<int>): (r: seq<Candle>)
    ensures |r| <= |candles| && r == candles[|candles| - |r|..]
    ensures limit.Some? && limit.value != 0 && |candles| > limit.value
            ==> |r| == if limit.value < 0 then 0 else limit.value
    ensures limit.None? || limit.value == 0 || |candles| <= limit.value ==> r == candles
  {
    if limit.Some? && limit.value != 0 && |candles| > limit.value then
      if limit.value < 0 then [] else candles[|candles| - limit.value..]
    else candles
  }

  /** The index of the first position with the figi. */
  function FindPosition(positions: seq<Position>, figi: Option<string>, from: nat): (r: Option<nat>)
    requires from <= |positions|
    ensures r.Some? ==> from <= r.value < |positions| && Some(positions[r.value].figi) == figi
    ensures r.Some? ==> forall i :: from <= i < r.value ==> Some(positions[i].figi) != figi
    ensures r.None? ==> forall i :: from <= i < |positions| ==> Some(positions[i].figi) != figi
    decreases |positions| - from
  {
    if from == |positions| then None
    else if Some(positions[from].figi) == figi then Some(from)
    else FindPosition(positions, figi, from + 1)
  }

  /** `getBalance`: the quantity of the first position with the figi, 0 without one. */
  function GetBalance(figi: Option<string>, positions: seq<Position>): (r: real)
    ensures (forall i :: 0 <= i < |positions| ==> Some(positions[i].figi) != figi) ==> r == 0.0
    ensures forall i :: 0 <= i < |positions| && Some(positions[i].figi) == figi
              && (forall j :: 0 <= j < i ==> Some(positions[j].figi) != figi)
              ==> r == positions[i].quantity
  {
    match FindPosition(positions, figi, 0)
    case None => 0.0
    case Some(i) => positions[i].quantity
  }

  /** `getMinLotSize`: the configured size, or 1 when it is missing or NaN (None). */
  function GetMinLotSize(minLotQuantity: Option<real>): (r: real)
    ensures minLotQuantity.None? ==> r == 1.0
    ensures minLotQuantity.Some? ==> r == minLotQuantity.value
  {
    if minLotQuantity.None? then 1.0 else minLotQuantity.value
  }

  /**
   * `getOrderQuantity`: nothing when the limit is NaN (None) or exceeds the
   * balance, otherwise the limit raised to at least one.
   */
  function GetOrderQuantity(limit: Option<real>, balance: real): (r: real)
    ensures r == 0.0 <==> limit.None? || balance < limit.value
    ensures r != 0.0 ==> r >= 1.0 && r >= limit.value
    ensures r != 0.0 && limit.value >= 1.0 ==> r == limit.value
    ensures r != 0.0 && limit.value < 1.0 ==> r == 1.0
  {
    if limit.None? || balance < limit.value then 0.0
    else if limit.value < 1.0 then 1.0
    else limit.value
  }

  /** Once the balance covers a whole unit, the quantity never exceeds the balance. */
  lemma QuantityWithinBalance(limit: Option<real>, balance: real)
    requires balance >= 1.0
    ensures GetOrderQuantity(limit, balance) <= balance
  {
  }

  /** CANDLE_INTERVAL, with the broker's codes. */
  datatype CandleInterval = Unspecified | OneMinute | FiveMinutes | FifteenMinutes | Hour | Day

  function Code(i: CandleInterval): (c: nat)
    ensures c <= 5
  {
    match i
    case Unspecified => 0
    case OneMinute => 1
    case FiveMinutes => 2
    case FifteenMinutes => 3
    case Hour => 4
    case Day => 5
  }

  /**
   * The interval choice of `calculateCandelIntervalConfig`: any count of
   * days is a day candle, any count of hours an hour candle, 1, 5 or 15
   * minutes the matching minute candle; anything else leaves it unset.
   */
  function IntervalOf(conf: ParseTime.TimeConf): (r: Option<CandleInterval>)
    ensures conf.timeUnit == Some(TimeConverter.DAYS) <==> r == Some(Day)
    ensures conf.timeUnit == Some(TimeConverter.HOURS) <==> r == Some(Hour)
    ensures r == Some(OneMinute) <==> conf.timeUnit == Some(TimeConverter.MINUTES) && conf.numericValue == 1
    ensures r == Some(FiveMinutes) <==> conf.timeUnit == Some(TimeConverter.MINUTES) && conf.numericValue == 5
    ensures r == Some(FifteenMinutes) <==> conf.timeUnit == Some(TimeConverter.MINUTES) && conf.numericValue == 15
    ensures r != Some(Unspecified)
  {
    if conf.timeUnit == Some(TimeConverter.DAYS) then Some(Day)
    else if conf.timeUnit == Some(TimeConverter.HOURS) then Some(Hour)
    else if conf.timeUnit == Some(TimeConverter.MINUTES) then
      if conf.numericValue == 1 then Some(OneMinute)
      else if conf.numericValue == 5 then Some(FiveMinutes)
      else if conf.numericValue == 15 then Some(FifteenMinutes)
      else None
    else None
  }

  /** The configured intervals the strategies use map to candle intervals. */
  lemma ConfiguredIntervals()
    ensures IntervalOf(ParseTime.Parse("1d").value) == Some(Day)
    ensures IntervalOf(ParseTime.Parse("1h").value) == Some(Hour)
    ensures IntervalOf(ParseTime.Parse("30m").value) == None
  {
    ParseTime.ParseDays();
    ParseTime.ParseHours();
    ParseTime.ParseMinutes();
  }

  /** MAX_CANDLE_INTERVAL: the most days one request may span; None for an unset interval. */
  function MaxDays(interval: Option<CandleInterval>): (r: Option<nat>)
    ensures r.Some? ==> r.value > 0
    ensures r.None? <==> interval.None? || interval == Some(Unspecified)
  {
    match interval
    case None => None
    case Some(Unspecified) => None
    case Some(OneMinute) => Some(1)
    case Some(FiveMinutes) => Some(1)
    case Some(FifteenMinutes) => Some(1)
    case Some(Hour) => Some(7)
    case Some(Day) => Some(365)
  }

  /** `Math.ceil(a / b)` for positive `a` and `b`. */
  function CeilDiv(a: nat, b: nat): (q: nat)
    requires a > 0 && b > 0
    ensures (q - 1) * b < a <= q * b
    ensures q > 0
  {
    var q := (a + b - 1) / b;
    var r := (a + b - 1) % b;
    assert a + b - 1 == q * b + r && 0 <= r < b;
    assert q * b == a + b - 1 - r;
    assert (q - 1) * b == q * b - b;
    q
  }

  /** A request frame: the requested span as a whole, or the days `start` to `end` after its start. */
  datatype Frame = Requested | Days(start: int, end: int)

  /** The frames of a span too long for one request: consecutive spans of `width` days. */
  function DayFrames(count: nat, width: nat): (r: seq<Frame>)
    ensures |r| == count
    ensures forall i :: 0 <= i < count ==> r[i] == Days(i * width, (i + 1) * width)
  {
    seq(count, (i: int) => Days(i * width, (i + 1) * width))
  }

  /**
   * `splitHistoricalCandlesByIntervals` on a span of `days` days (rounded
   * up): one frame when the interval allows it, otherwise as many frames of
   * the maximal width as cover the span; none for an unset interval.
   */
  method SplitHistoricalCandlesByIntervals(days: int, maxInterval: Option<nat>) returns (frames: seq<Frame>)
    requires maxInterval.Some? ==> maxInterval.value > 0
    ensures maxInterval.None? ==> frames == []
    ensures maxInterval.Some? && days <= maxInterval.value ==> frames == [Requested]
    ensures maxInterval.Some? && days > maxInterval.value ==>
              frames == DayFrames(CeilDiv(days, maxInterval.value), maxInterval.value)
  {
    if maxInterval.None? {
      return [];
    }
    var width := maxInterval.value;
    if days <= width {
      return [Requested];
    }
    var chunksQuantity := CeilDiv(days, width);
    var startDay := 0;
    frames := [];
    while chunksQuantity > 0
      invariant startDay == |frames| * width
      invariant |frames| + chunksQuantity == CeilDiv(days, width)
      invariant frames == DayFrames(|frames|, width)
    {
      var endDay := startDay + width;
      frames := frames + [Days(startDay, endDay)];
      startDay := endDay;
      chunksQuantity := chunksQuantity - 1;
    }
  }

  /** The day frames of a long span cover it, and the last one is needed. */
  lemma DayFramesCover(days: nat, width: nat)
    requires days > width > 0
    ensures var frames := DayFrames(CeilDiv(days, width), width);
      && frames[0].start == 0
      && frames[|frames| - 1].start < days <= frames[|frames| - 1].end
      && forall i :: 0 <= i < |frames| - 1 ==> frames[i].end == frames[i + 1].start
  {
  }

  const MAX_REQUEST_PERMINUTE := 100

  /** How many chunks `loadHistoricalCandles` enqueues: one, or as many as 100 frames a minute need. */
  function ChunkCount(frameCount: nat): (c: nat)
    ensures c > 0
    ensures frameCount <= (c * MAX_REQUEST_PERMINUTE)
    ensures frameCount > MAX_REQUEST_PERMINUTE ==> (c - 1) * MAX_REQUEST_PERMINUTE < frameCount
  {
    if frameCount > MAX_REQUEST_PERMINUTE then CeilDiv(frameCount, MAX_REQUEST_PERMINUTE) else 1
  }

  function Min(a: int, b: int): int
  {
    if a <= b then a else b
  }

  /** Chunk `i`: `frames.slice(i * 100, (i + 1) * 100)`. */
  function Chunk(frames: seq<Frame>, i: nat): (c: seq<Frame>)
    ensures |c| <= MAX_REQUEST_PERMINUTE
  {
    frames[Min(i * MAX_REQUEST_PERMINUTE, |frames|)..Min((i + 1) * MAX_REQUEST_PERMINUTE, |frames|)]
  }

  /** The first `n` chunks. */
  function ChunksUpTo(frames: seq<Frame>, n: nat): (r: seq<seq<Frame>>)
    ensures |r| == n
    ensures forall i :: 0 <= i < n ==> r[i] == Chunk(frames, i)
  {
    if n == 0 then [] else ChunksUpTo(frames, n - 1) + [Chunk(frames, n - 1)]
  }

  /** The chunks `loadHistoricalCandles` enqueues, in order. */
  function Chunks(frames: seq<Frame>): seq<seq<Frame>>
  {
    ChunksUpTo(frames, ChunkCount(|frames|))
  }

  /** The chunks joined back together. */
  function Flatten(chunks: seq<seq<Frame>>): seq<Frame>
  {
    if chunks == [] then [] else Flatten(chunks[..|chunks| - 1]) + chunks[|chunks| - 1]
  }

  lemma {:induction false} FlattenChunksUpTo(frames: seq<Frame>, n: nat)
    ensures Flatten(ChunksUpTo(frames, n)) == frames[..Min(n * MAX_REQUEST_PERMINUTE, |frames|)]
  {
    if n > 0 {
      var k := n - 1;
      FlattenChunksUpTo(frames, k);
      var c := ChunksUpTo(frames, n);
      assert c == ChunksUpTo(frames, k) + [Chunk(frames, k)];
      assert c[..k] == ChunksUpTo(frames, k);
      assert Flatten(c) == Flatten(ChunksUpTo(frames, k)) + Chunk(frames, k);
      var lo, hi := Min(k * MAX_REQUEST_PERMINUTE, |frames|), Min(n * MAX_REQUEST_PERMINUTE, |frames|);
      assert lo <= hi;
      assert Chunk(frames, k) == frames[lo..hi];
      assert frames[..hi] == frames[..lo] + frames[lo..hi];
    }
  }

  /** The chunks hold every frame once, in order, at most 100 each, and none is empty unless there are no frames. */
  lemma ChunksPartitionFrames(frames: seq<Frame>)
    ensures Flatten(Chunks(frames)) == frames
    ensures forall c :: c in Chunks(frames) ==> |c| <= MAX_REQUEST_PERMINUTE
    ensures |frames| > 0 ==> forall c :: c in Chunks(frames) ==> |c| > 0
  {
    var n := ChunkCount(|frames|);
    FlattenChunksUpTo(frames, n);
    assert frames[..Min(n * MAX_REQUEST_PERMINUTE, |frames|)] == frames;
    if |frames| > 0 {
      forall c | c in Chunks(frames)
        ensures |c| > 0
      {
        var i :| 0 <= i < n && Chunks(frames)[i] == c;
        assert (i * MAX_REQUEST_PERMINUTE) < |frames| by {
          if |frames| > MAX_REQUEST_PERMINUTE {
            assert i * MAX_REQUEST_PERMINUTE <= (n - 1) * MAX_REQUEST_PERMINUTE;
          } else {
            assert i == 0;
          }
        }
      }
    }
  }

  /** The chunking loop of `loadHistoricalCandles`: every chunk goes on the request queue, in order. */
  method EnqueueChunks(queue: DataStructures.Queue<seq<Frame>>, frames: seq<Frame>)
    requires queue.Valid()
    modifies queue.Repr
    ensures queue.Valid() && fresh(queue.Repr - old(queue.Repr))
    ensures queue.Contents == old(queue.Contents) + Chunks(frames)
  {
    var chunksCounter := 1;
    if |frames| > MAX_REQUEST_PERMINUTE {
      chunksCounter := CeilDiv(|frames|, MAX_REQUEST_PERMINUTE);
    }
    var currentChunkStart := 0;
    var done := 0;
    while chunksCounter > 0
      invariant queue.Valid() && fresh(queue.Repr - old(queue.Repr))
      invariant chunksCounter >= 0 && done + chunksCounter == ChunkCount(|frames|)
      invariant currentChunkStart == done * MAX_REQUEST_PERMINUTE
      invariant queue.Contents == old(queue.Contents) + ChunksUpTo(frames, done)
    {
      var currentChunkEnd := currentChunkStart + MAX_REQUEST_PERMINUTE;
      queue.Enq(frames[Min(currentChunkStart, |frames|)..Min(currentChunkEnd, |frames|)]);
      currentChunkStart := currentChunkEnd;
      done := done + 1;
      chunksCounter := chunksCounter - 1;
    }
  }
}
