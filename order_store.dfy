/**
 * The order stores: the file-backed `DataBase` of src/db.ts and the local
 * order repository of src/repositories/orderRepository/localRepository.ts.
 * Both hold a record of orders and a last order time. Saving appends the
 * order and re-sorts by descending numeric price; deleting filters by an id.
 * The file itself is modelled as a field: None when it is missing or
 * unreadable.
 */
module OrderStore {
  import opened Wrappers
  import opened Entities
  import ParseTime

  /** Every order has a numeric price, and the prices descend. */
  predicate PricedDescending(orders: seq<Order>)
  {
    && (forall i :: 0 <= i < |orders| ==> orders[i].price.Some?)
    && (forall i, j :: 0 <= i < j < |orders| ==> orders[i].price.value >= orders[j].price.value)
  }

  /**
   * The stable sort by descending price of a sorted list plus one new order:
   * the old orders keep their order and the new one goes right after every
   * order priced at least as high. Returns the list and the new order's index.
   */
  method InsertByPrice(orders: seq<Order>, order: Order) returns (r: seq<Order>, at: nat)
    requires PricedDescending(orders) && order.price.Some?
    ensures at <= |orders| && r == orders[..at] + [order] + orders[at..]
    ensures forall i :: 0 <= i < at ==> orders[i].price.value >= order.price.value
    ensures forall i :: at <= i < |orders| ==> orders[i].price.value < order.price.value
    ensures PricedDescending(r)
    ensures multiset(r) == multiset(orders + [order])
  {
    at := 0;
    while at < |orders| && orders[at].price.value >= order.price.value
      invariant at <= |orders|
      invariant forall i :: 0 <= i < at ==> orders[i].price.value >= order.price.value
    {
      at := at + 1;
    }
    r := orders[..at] + [order] + orders[at..];
    InsertedSorted(orders, order, at);
    assert orders == orders[..at] + orders[at..];
  }

  /** Inserting at the boundary between the orders priced at least as high and the cheaper ones keeps prices descending. */
  lemma InsertedSorted(orders: seq<Order>, order: Order, at: nat)
    requires PricedDescending(orders) && order.price.Some? && at <= |orders|
    requires forall i :: 0 <= i < at ==> orders[i].price.value >= order.price.value
    requires forall i :: at <= i < |orders| ==> orders[i].price.value < order.price.value
    ensures PricedDescending(orders[..at] + [order] + orders[at..])
  {
    var r := orders[..at] + [order] + orders[at..];
    assert forall i :: 0 <= i < at ==> r[i] == orders[i];
    assert r[at] == order;
    assert forall i :: at < i < |r| ==> r[i] == orders[i - 1];
  }

  /** The orders `keep` accepts, in their original order (`Array.prototype.filter`). */
  function Kept(orders: seq<Order>, keep: Order -> bool): (r: seq<Order>)
    ensures |r| <= |orders|
    ensures forall o :: o in r ==> o in orders && keep(o)
    ensures forall o :: o in orders && keep(o) ==> o in r
  {
    if orders == [] then []
    else
      var last := orders[|orders| - 1];
      Kept(orders[..|orders| - 1], keep) + (if keep(last) then [last] else [])
  }

  /** Filtering with a test every order passes changes nothing. */
  lemma {:induction false} KeptAll(orders: seq<Order>, keep: Order -> bool)
    requires forall i :: 0 <= i < |orders| ==> keep(orders[i])
    ensures Kept(orders, keep) == orders
  {
    if orders != [] {
      KeptAll(orders[..|orders| - 1], keep);
    }
  }

  /** Filtering keeps a sorted list sorted. */
  lemma {:induction false} KeptSorted(orders: seq<Order>, keep: Order -> bool)
    requires PricedDescending(orders)
    ensures PricedDescending(Kept(orders, keep))
  {
    if orders != [] {
      var init, last := orders[..|orders| - 1], orders[|orders| - 1];
      KeptSorted(init, keep);
      var k := Kept(init, keep);
      forall o | o in k
        ensures o.price.Some? && o.price.value >= last.price.value
      {
        var i :| 0 <= i < |init| && init[i] == o;
        assert orders[i] == o;
      }
      var r := Kept(orders, keep);
      forall i, j | 0 <= i < j < |r|
        ensures r[i].price.value >= r[j].price.value
      {
        if j == |k| {
          assert r[i] in k;
        } else {
          assert r[i] == k[i] && r[j] == k[j];
        }
      }
    }
  }

  /** `orders.filter(keep)`, one order at a time. */
  method Filter(orders: seq<Order>, keep: Order -> bool) returns (r: seq<Order>)
    ensures r == Kept(orders, keep)
  {
    r := [];
    var i := 0;
    while i < |orders|
      invariant i <= |orders|
      invariant r == Kept(orders[..i], keep)
    {
      assert orders[..i + 1][..i] == orders[..i];
      if keep(orders[i]) {
        r := r + [orders[i]];
      }
      i := i + 1;
    }
    assert orders[..i] == orders;
  }

  /** The stored record: the orders and the time of the last order. */
  datatype Record = Record(orders: seq<Order>, lastOrderTime: Option<real>)

  /** The record `loadFile` falls back to for a missing file, as written: the last order time is the time of loading. */
  function DefaultRecordAsWritten(now: real): (r: Record)
    ensures r.orders == [] && r.lastOrderTime == Some(now)
  {
    Record([], Some(now))
  }

  /** The record a missing file should stand for: no orders and no last order time. */
  function DefaultRecord(): (r: Record)
    ensures r.orders == [] && r.lastOrderTime.None?
  {
    Record([], None)
  }

  /** `deleteOrder`'s filter as written: it keeps the orders whose `String(orderId)` differs from `id`. */
  function RemainingAsWritten(orders: seq<Order>, id: string): (r: seq<Order>)
    ensures forall o :: o in r <==> o in orders && JsString(o.orderId) != id
  {
    Kept(orders, (o: Order) => JsString(o.orderId) != id)
  }

  /** The filter the strategies' delete key calls for: drop the orders whose `id || orderId` is `id`. */
  function Remaining(orders: seq<Order>, id: string): (r: seq<Order>)
    ensures forall o :: o in r <==> o in orders && DeleteKey(o) != id
  {
    Kept(orders, (o: Order) => DeleteKey(o) != id)
  }

  /**
   * An order with an `id` and no `orderId` survives the as-written delete by
   * its own delete key, while the corrected filter removes it.
   */
  lemma DeleteByIdMissed()
    ensures var o := Order(Some(Text("a1")), None, Buy, None, Some(10.0), Some(1.0), None);
      && DeleteKey(o) == "a1"
      && RemainingAsWritten([o], DeleteKey(o)) == [o]
      && Remaining([o], DeleteKey(o)) == []
  {
  }

  /**
   * The `DataBase` of src/db.ts, as written: a missing file reads as the
   * default record stamped with the time of reading, and deletion filters
   * on `String(orderId)`. Each operation takes the time it runs at.
   */
  class DataBase {
    /** The orders file; None when it is missing or unreadable. */
    var file: Option<Record>

    constructor (file: Option<Record>)
      ensures this.file == file
    {
      this.file := file;
    }

    /** Whatever the file holds is sorted by descending numeric price. */
    predicate Valid()
      reads this
    {
      file.Some? ==> PricedDescending(file.value.orders)
    }

    /** `loadFile` at time `now`: the stored record, or the default for a missing file. */
    function Load(now: real): (r: Record)
      reads this
      ensures file.None? ==> r == DefaultRecordAsWritten(now)
    {
      if file.Some? then file.value else DefaultRecordAsWritten(now)
    }

    /** `getOrders`: the stored orders (none without a file); pair and user play no part. */
    function GetOrders(now: real): (orders: seq<Order>)
      reads this
      requires Valid()
      ensures PricedDescending(orders)
      ensures file.None? ==> orders == []
    {
      Load(now).orders
    }

    /** `getLastOrderTime`: the stored time; without a file, the time of reading. */
    function GetLastOrderTime(now: real): (t: Option<real>)
      reads this
      ensures file.None? ==> t == Some(now)
      ensures file.Some? ==> t == file.value.lastOrderTime
    {
      Load(now).lastOrderTime
    }

    /**
     * `saveOrder`: adds the order right after every stored order priced at
     * least as high, and stamps the record with `now`.
     */
    method SaveOrder(order: Order, now: real)
      requires Valid() && order.price.Some?
      modifies this
      ensures Valid() && file.Some? && file.value.lastOrderTime == Some(now)
      ensures exists k ::
                && 0 <= k <= |old(Load(now).orders)|
                && file.value.orders == old(Load(now).orders)[..k] + [order] + old(Load(now).orders)[k..]
                && (forall i :: 0 <= i < k ==> old(Load(now).orders)[i].price.value >= order.price.value)
                && (forall i :: k <= i < |old(Load(now).orders)| ==> old(Load(now).orders)[i].price.value < order.price.value)
      ensures multiset(file.value.orders) == multiset(old(Load(now).orders) + [order])
    {
      var data := Load(now);
      var sorted, at := InsertByPrice(data.orders, order);
      file := Some(Record(sorted, Some(now)));
    }

    /** `deleteOrder`: drops the orders whose `String(orderId)` is `id`, keeps the rest in order, and stamps the record. */
    method DeleteOrder(id: string, now: real)
      requires Valid()
      modifies this
      ensures Valid() && file.Some? && file.value.lastOrderTime == Some(now)
      ensures file.value.orders == RemainingAsWritten(old(Load(now).orders), id)
      ensures forall o :: o in file.value.orders ==> JsString(o.orderId) != id
    {
      var data := Load(now);
      var kept := Filter(data.orders, (o: Order) => JsString(o.orderId) != id);
      KeptSorted(data.orders, (o: Order) => JsString(o.orderId) != id);
      file := Some(Record(kept, Some(now)));
    }
  }

  /** Deleting an id that no stored order's `String(orderId)` equals leaves the orders as they were. */
  lemma DeleteAbsentId(orders: seq<Order>, id: string)
    requires forall o :: o in orders ==> JsString(o.orderId) != id
    ensures RemainingAsWritten(orders, id) == orders
  {
    KeptAll(orders, (o: Order) => JsString(o.orderId) != id);
  }

  /** The corrected filter likewise leaves the orders alone when no delete key equals the id. */
  lemma DeleteAbsentKey(orders: seq<Order>, id: string)
    requires forall o :: o in orders ==> DeleteKey(o) != id
    ensures Remaining(orders, id) == orders
  {
    KeptAll(orders, (o: Order) => DeleteKey(o) != id);
  }

  /** The local order repository: the same record, always present. */
  class LocalOrderRepository {
    var orders: seq<Order>
    var lastOrderTime: Option<real>

    constructor (orders: seq<Order>, lastOrderTime: Option<real>)
      requires PricedDescending(orders)
      ensures this.orders == orders && this.lastOrderTime == lastOrderTime && Valid()
    {
      this.orders := orders;
      this.lastOrderTime := lastOrderTime;
    }

    predicate Valid()
      reads this
    {
      PricedDescending(orders)
    }

    /** `updateLastTrade`: sets the last order time and nothing else. */
    method UpdateLastTrade(time: real)
      modifies this`lastOrderTime
      ensures lastOrderTime == Some(time) && orders == old(orders)
    {
      lastOrderTime := Some(time);
    }

    /** `saveOrder`: adds the order in price order; the last order time is not touched. */
    method SaveOrder(order: Order)
      requires Valid() && order.price.Some?
      modifies this`orders
      ensures Valid() && lastOrderTime == old(lastOrderTime)
      ensures exists k ::
                && 0 <= k <= |old(orders)|
                && orders == old(orders)[..k] + [order] + old(orders)[k..]
                && (forall i :: 0 <= i < k ==> old(orders)[i].price.value >= order.price.value)
                && (forall i :: k <= i < |old(orders)| ==> old(orders)[i].price.value < order.price.value)
      ensures multiset(orders) == multiset(old(orders) + [order])
    {
      var at;
      orders, at := InsertByPrice(orders, order);
    }

    /**
     * `deleteOrder`: drops the orders whose `id || orderId` is strictly equal
     * to `id` (a number never equals a string), keeps the rest in order, and
     * returns the time of deletion; the stored last order time is not touched.
     */
    method DeleteOrder(id: Key, now: real) returns (time: real)
      requires Valid()
      modifies this`orders
      ensures Valid() && time == now && lastOrderTime == old(lastOrderTime)
      ensures orders == Kept(old(orders), (o: Order) => IdOrOrderId(o) != Some(id))
      ensures forall o :: o in orders ==> IdOrOrderId(o) != Some(id)
      ensures forall o :: o in old(orders) && IdOrOrderId(o) != Some(id) ==> o in orders
    {
      KeptSorted(orders, (o: Order) => IdOrOrderId(o) != Some(id));
      orders := Filter(orders, (o: Order) => IdOrOrderId(o) != Some(id));
      time := now;
    }
  }

  /**
   * The repository compares ids strictly: an order whose id is the number
   * `n` is kept when deleting by the string that `String(n)` gives, and
   * removed when deleting by the number itself.
   */
  lemma {:induction false} NumericIdNeedsNumericKey(orders: seq<Order>, o: Order, n: nat)
    requires o in orders && o.id == Some(Numeric(n)) && n != 0
    ensures o in Kept(orders, (p: Order) => IdOrOrderId(p) != Some(Text(ParseTime.DecimalString(n))))
    ensures o !in Kept(orders, (p: Order) => IdOrOrderId(p) != Some(Numeric(n)))
  {
  }
}
