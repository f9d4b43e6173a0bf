/**
 * The records the strategies and adapters exchange: candles, orders,
 * portfolio positions, and the calls a handler issues to its collaborators
 * (trade API, order store, portfolio store).
 */
module Entities {
  import opened Wrappers
  import ParseTime

  /** TRADE_DIRECTIONS: an order side or a candle direction. */
  datatype Side = Buy | Sell

  /** The event name a side is dispatched under (`this.dispatch(trend, ...)`). */
  function SideEvent(side: Side): string
  {
    match side
    case Buy => "buy"
    case Sell => "sell"
  }

  /** One OHLCV bar; `tradeSide` is only set by the backtest adapter. */
  datatype Candle = Candle(
    openingPrice: real,
    closingPrice: real,
    higherPrice: real,
    lowerPrice: real,
    volume: real,
    openingTime: Option<real>,
    tradeSide: Option<Side>)

  /** An order id: brokers report it as a string or as a number. */
  datatype Key = Text(text: string) | Numeric(number: nat)

  /**
   * A placed or cached order. Fields that the source reads but that some
   * brokers leave out are optional; a `price` of `None` is a value that
   * `Number(...)` turns into NaN.
   */
  datatype Order = Order(
    id: Option<Key>,
    orderId: Option<Key>,
    side: Side,
    time: Option<real>,
    price: Option<real>,
    quantity: Option<real>,
    origQty: Option<real>)

  /** JavaScript truthiness of an optional id: the empty string and 0 are false. */
  predicate Truthy(k: Option<Key>)
  {
    match k
    case None => false
    case Some(Text(s)) => s != ""
    case Some(Numeric(n)) => n != 0
  }

  /** `String(x)` of an optional id: a number prints in decimal, `undefined` as "undefined". */
  function JsString(k: Option<Key>): string
  {
    match k
    case None => "undefined"
    case Some(Text(s)) => s
    case Some(Numeric(n)) => ParseTime.DecimalString(n)
  }

  /** The key `order.id || order.orderId`. */
  function IdOrOrderId(o: Order): Option<Key>
  {
    if Truthy(o.id) then o.id else o.orderId
  }

  /** `String(order.id || order.orderId)`: the id a sold order is deleted by. */
  function DeleteKey(o: Order): string
  {
    JsString(IdOrOrderId(o))
  }

  /** `Number(order.price)` is a usable, non-zero price. */
  predicate HasPrice(o: Order)
  {
    o.price.Some? && o.price.value != 0.0
  }

  /** IInstrument. */
  datatype InstrumentType = Share | Bond | Etf | Currency

  /** One position of a broker portfolio. */
  datatype Position = Position(
    figi: string,
    instrumentType: InstrumentType,
    quantity: real,
    quantityLots: real,
    currentPrice: real)

  /**
   * A call a handler makes to a collaborator, in the order it makes them.
   * `BuySaving(None)` passes NaN. A batch maps each figi to the lots traded
   * for it; the orders of one batch are issued concurrently.
   */
  datatype ApiCall =
    | PlaceBuy(quantity: real, price: real)
    | PlaceSell(quantity: real, price: real)
    | SaveOrder(order: Order)
    | DeleteOrder(id: string)
    | BuySaving(savedAmount: Option<real>)
    | RedeemSaving(amount: real)
    | EmitNextCandles
    | SavePortfolio(positions: seq<Position>)
    | SellBatch(lots: map<string, real>)
    | BuyBatch(lots: map<string, real>)
}
