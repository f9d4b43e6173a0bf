/**
 * The portfolio-following strategy (src/strategies/followPortfolio/index.ts):
 * it watches a source portfolio, and when its positions change it rebalances
 * a target portfolio to the source's proportions, selling first and buying
 * after. Portfolios arrive as parameters; the snapshot store and the trade
 * calls are returned as `ApiCall`s.
 */
module FollowPortfolio {
  import opened Wrappers
  import opened Entities
  import opened StateMachine
  import opened RealArith

  datatype Handler = InitExec | AnalyzeDetectChanges | AnalyzeCalculateProportions | TradeFulfillTrades

  /** The lots and the quantity of one rebalancing order. */
  datatype Trade = Trade(lots: real, quantity: real)

  /** The rebalancing orders, keyed by figi. */
  datatype Orders = Orders(buy: map<string, Trade>, sell: map<string, Trade>)

  datatype Arg =
    | PortfolioArg(positions: seq<Position>)
    | PricedPortfolioArg(positions: seq<Position>, totalPortfolioPrice: real)
    | OrdersArg(orders: Orders)

  const Transitions: Table<Handler> := map[
    "init" := map["exec" := InitExec],
    "analyzePortfolio" := map[
      "detectChangesInPortfolio" := AnalyzeDetectChanges,
      "calculatePortfolioProportions" := AnalyzeCalculateProportions],
    "trade" := map["fulfillTrades" := TradeFulfillTrades]]

  /** The account's own cash: a currency position priced at exactly 1. */
  predicate IsMainPortfolioCurrency(p: Position)
  {
    p.instrumentType == Currency && p.currentPrice == 1.0
  }

  /** No two positions share a figi, as in a broker's portfolio. */
  predicate DistinctFigis(ps: seq<Position>)
  {
    forall i, j :: 0 <= i < j < |ps| ==> ps[i].figi != ps[j].figi
  }

  /**
   * The non-cash positions keyed by figi, as the snapshot `reduce` and
   * `calcPortfolioProportion` build them; a later position with the same
   * figi replaces an earlier one.
   */
  function ByFigi(ps: seq<Position>): (r: map<string, Position>)
    ensures forall k :: k in r ==> r[k].figi == k && !IsMainPortfolioCurrency(r[k]) && r[k] in ps
    ensures forall i :: 0 <= i < |ps| && !IsMainPortfolioCurrency(ps[i]) ==> ps[i].figi in r
  {
    if ps == [] then map[]
    else
      var p := ps[|ps| - 1];
      var r := ByFigi(ps[..|ps| - 1]);
      assert forall k :: k in r ==> r[k] in ps[..|ps| - 1];
      if IsMainPortfolioCurrency(p) then r else r[p.figi := p]
  }

  /** With distinct figis every non-cash position is found under its own figi. */
  lemma {:induction false} ByFigiFinds(ps: seq<Position>, i: nat)
    requires DistinctFigis(ps) && i < |ps| && !IsMainPortfolioCurrency(ps[i])
    ensures ps[i].figi in ByFigi(ps) && ByFigi(ps)[ps[i].figi] == ps[i]
  {
    if i < |ps| - 1 {
      var init := ps[..|ps| - 1];
      assert init[i] == ps[i];
      ByFigiFinds(init, i);
    }
  }

  /** The sum of price × quantity over every position, cash included. */
  function PortfolioPrice(ps: seq<Position>): real
  {
    if ps == [] then 0.0
    else PortfolioPrice(ps[..|ps| - 1]) + Mul(ps[|ps| - 1].currentPrice, ps[|ps| - 1].quantity)
  }

  /** A portfolio whose prices and quantities are all non-negative is worth at least nothing. */
  lemma {:induction false} PortfolioPriceNonNegative(ps: seq<Position>)
    requires forall i :: 0 <= i < |ps| ==> ps[i].currentPrice >= 0.0 && ps[i].quantity >= 0.0
    ensures PortfolioPrice(ps) >= 0.0
  {
    if ps != [] {
      var last := ps[|ps| - 1];
      PortfolioPriceNonNegative(ps[..|ps| - 1]);
      MulNonNegative(last.currentPrice, last.quantity);
    }
  }

  /** A position's share of a portfolio worth `total`. */
  function Percent(p: Position, total: real): real
    requires total != 0.0
  {
    Div(Mul(p.quantity, p.currentPrice), total)
  }

  /** A position with its share of the portfolio. */
  datatype Proportion = Proportion(position: Position, percent: real)

  /** `calcPortfolioProportion`: each non-cash position's share, keyed by figi. */
  function Proportions(ps: seq<Position>, total: real): map<string, Proportion>
    requires total != 0.0 || ByFigi(ps) == map[]
  {
    var byFigi := ByFigi(ps);
    map k | k in byFigi :: Proportion(byFigi[k], Percent(byFigi[k], total))
  }

  /** `calcPortfolioProportion`, one position at a time. */
  method CalcPortfolioProportion(ps: seq<Position>, total: real) returns (result: map<string, Proportion>)
    requires total != 0.0 || ByFigi(ps) == map[]
    ensures result == Proportions(ps, total)
    ensures forall i :: 0 <= i < |ps| && !IsMainPortfolioCurrency(ps[i]) ==> ps[i].figi in result
    ensures forall k :: k in result ==>
              && result[k].position.figi == k && result[k].position in ps
              && !IsMainPortfolioCurrency(result[k].position)
              && result[k].percent == Div(Mul(result[k].position.quantity, result[k].position.currentPrice), total)
  {
    result := map[];
    var i := 0;
    while i < |ps|
      invariant i <= |ps|
      invariant result == Proportions(ps[..i], total)
    {
      var p := ps[i];
      assert ps[..i + 1][..i] == ps[..i];
      if !IsMainPortfolioCurrency(p) {
        result := result[p.figi := Proportion(p, Percent(p, total))];
      }
      i := i + 1;
    }
    assert ps[..i] == ps;
  }

  /**
   * One step of the change scan: a figi the snapshot lacks is added, a figi
   * whose quantity is unchanged is removed, the cash is skipped.
   */
  function Step(changed: map<string, Position>, p: Position): map<string, Position>
  {
    if IsMainPortfolioCurrency(p) then changed
    else if p.figi !in changed then changed[p.figi := p]
    else if changed[p.figi].quantity == p.quantity then changed - {p.figi}
    else changed
  }

  /** The change scan over the current positions, first to last. */
  function ChangesAfter(changed: map<string, Position>, ps: seq<Position>): map<string, Position>
  {
    if ps == [] then changed
    else Step(ChangesAfter(changed, ps[..|ps| - 1]), ps[|ps| - 1])
  }

  /**
   * The changes described directly: the figis held by only one of the two
   * portfolios, or by both in different quantities, with the snapshot's
   * position where it has one.
   */
  function ChangeSpec(snapshot: map<string, Position>, current: map<string, Position>): map<string, Position>
  {
    map k | k in snapshot.Keys + current.Keys
              && (k !in snapshot || k !in current || snapshot[k].quantity != current[k].quantity)
      :: if k in snapshot then snapshot[k] else current[k]
  }

  /** The scan computes exactly the changes, whenever the current figis are distinct. */
  lemma {:induction false} ChangesMatchSpec(snapshot: map<string, Position>, ps: seq<Position>)
    requires DistinctFigis(ps)
    ensures ChangesAfter(snapshot, ps) == ChangeSpec(snapshot, ByFigi(ps))
  {
    if ps == [] {
      assert ChangeSpec(snapshot, map[]) == snapshot;
    } else {
      var init, p := ps[..|ps| - 1], ps[|ps| - 1];
      ChangesMatchSpec(snapshot, init);
      if !IsMainPortfolioCurrency(p) {
        StepMatchesSpec(snapshot, ByFigi(init), p);
      }
    }
  }

  /** Adding one position of a new figi to the current portfolio is one scan step. */
  lemma StepMatchesSpec(snapshot: map<string, Position>, current: map<string, Position>, p: Position)
    requires !IsMainPortfolioCurrency(p) && p.figi !in current
    ensures Step(ChangeSpec(snapshot, current), p) == ChangeSpec(snapshot, current[p.figi := p])
  {
    var before := ChangeSpec(snapshot, current);
    assert p.figi in before <==> p.figi in snapshot;
    assert p.figi in before ==> before[p.figi] == snapshot[p.figi];
  }

  /**
   * Which figis `detectChangesInPortfolio` reports: those new to the
   * portfolio, those gone from it, and those whose quantity moved.
   */
  lemma ChangedFigis(snapshot: seq<Position>, ps: seq<Position>, k: string)
    requires DistinctFigis(ps)
    ensures var s, c := ByFigi(snapshot), ByFigi(ps);
      k in ChangesAfter(s, ps) <==>
        || (k in s && k !in c)
        || (k !in s && k in c)
        || (k in s && k in c && s[k].quantity != c[k].quantity)
  {
    ChangesMatchSpec(ByFigi(snapshot), ps);
  }

  /** Price moves alone are not changes: same figis in the same quantities report nothing. */
  lemma SameQuantitiesNoChanges(snapshot: seq<Position>, ps: seq<Position>)
    requires DistinctFigis(ps)
    requires ByFigi(snapshot).Keys == ByFigi(ps).Keys
    requires forall k :: k in ByFigi(ps) ==> ByFigi(snapshot)[k].quantity == ByFigi(ps)[k].quantity
    ensures ChangesAfter(ByFigi(snapshot), ps) == map[]
  {
    ChangesMatchSpec(ByFigi(snapshot), ps);
  }

  /** Every portfolio differs from an empty snapshot in each of its non-cash positions. */
  lemma FirstSnapshotChangesAll(ps: seq<Position>)
    requires DistinctFigis(ps)
    ensures ChangesAfter(map[], ps) == ByFigi(ps)
  {
    ChangesMatchSpec(map[], ps);
  }

  /**
   * `init.exec`: with the source portfolio (None when fetching it failed),
   * moves to "analyzePortfolio" and passes it to `detectChangesInPortfolio`.
   */
  method Exec(m: Machine<Handler, Arg>, sourcePortfolio: Option<seq<Position>>)
    requires m.transitions == Transitions
    modifies m
    ensures sourcePortfolio.None? ==> m.state == old(m.state) && m.invoked == old(m.invoked)
    ensures sourcePortfolio.Some? ==> m.state == "analyzePortfolio"
    ensures sourcePortfolio.Some? ==>
              m.invoked == old(m.invoked) + [Invocation(AnalyzeDetectChanges, [PortfolioArg(sourcePortfolio.value)])]
  {
    if sourcePortfolio.None? {
      return;
    }
    m.ChangeState("analyzePortfolio");
    var _ := m.Dispatch("detectChangesInPortfolio", [PortfolioArg(sourcePortfolio.value)]);
  }

  /**
   * `analyzePortfolio.detectChangesInPortfolio`. `snapshot` is the stored
   * snapshot's positions: None when reading it failed, the empty list when
   * there is none. When anything changed, the new portfolio is stored and
   * passed on with its total price.
   */
  method DetectChangesInPortfolio(m: Machine<Handler, Arg>, portfolio: seq<Position>, snapshot: Option<seq<Position>>)
    returns (calls: seq<ApiCall>)
    requires m.transitions == Transitions
    modifies m
    ensures m.state == old(m.state)
    ensures portfolio == [] || snapshot.None? ==> calls == [] && m.invoked == old(m.invoked)
    ensures portfolio != [] && snapshot.Some? && ChangesAfter(ByFigi(snapshot.value), portfolio) == map[]
            ==> calls == [] && m.invoked == old(m.invoked)
    ensures portfolio != [] && snapshot.Some? && ChangesAfter(ByFigi(snapshot.value), portfolio) != map[]
            ==> && calls == [SavePortfolio(portfolio)]
                && m.invoked == old(m.invoked) + Called(Transitions, old(m.state), "calculatePortfolioProportions",
                                                        [PricedPortfolioArg(portfolio, PortfolioPrice(portfolio))])
  {
    calls := [];
    if |portfolio| == 0 || snapshot.None? {
      return;
    }
    var changed := ByFigi(snapshot.value);
    var total := 0.0;
    var i := 0;
    while i < |portfolio|
      invariant i <= |portfolio|
      invariant changed == ChangesAfter(ByFigi(snapshot.value), portfolio[..i])
      invariant total == PortfolioPrice(portfolio[..i])
    {
      var p := portfolio[i];
      assert portfolio[..i + 1][..i] == portfolio[..i];
      total := Mul(p.currentPrice, p.quantity) + total;
      if !IsMainPortfolioCurrency(p) {
        if p.figi !in changed {
          changed := changed[p.figi := p];
        } else if changed[p.figi].quantity == p.quantity {
          changed := changed - {p.figi};
        }
      }
      i := i + 1;
    }
    assert portfolio[..i] == portfolio;
    if |changed| == 0 {
      return;
    }
    calls := [SavePortfolio(portfolio)];
    var _ := m.Dispatch("calculatePortfolioProportions", [PricedPortfolioArg(portfolio, total)]);
  }

  /** A target portfolio as the broker reports it: positions and the five asset-class totals. */
  datatype TargetPortfolio = TargetPortfolio(
    positions: seq<Position>,
    totalShares: real,
    totalBonds: real,
    totalEtf: real,
    totalCurrencies: real,
    totalFutures: real)

  /** The target's total price: the sum of the five totals, rounded to two decimals. */
  function TargetTotal(t: TargetPortfolio): (total: real)
    ensures Hundredths(total)
    ensures var sum := t.totalShares + t.totalBonds + t.totalCurrencies + t.totalEtf + t.totalFutures;
      sum - 0.005 <= total <= sum + 0.005
  {
    ToFixed2(t.totalShares + t.totalBonds + t.totalCurrencies + t.totalEtf + t.totalFutures)
  }

  /** A position that can be traded in lots: it has lots, items and a price. */
  predicate Tradable(p: Position)
  {
    p.quantityLots != 0.0 && p.quantity != 0.0 && p.currentPrice != 0.0
  }

  /** The items in one lot. */
  function ItemsInLot(p: Position): real
    requires p.quantityLots != 0.0
  {
    Div(p.quantity, p.quantityLots)
  }

  /** The price of one lot. */
  function PriceForLot(p: Position): (price: real)
    requires Tradable(p)
    ensures price != 0.0
  {
    DivNonZero(p.quantity, p.quantityLots);
    MulNonZero(ItemsInLot(p), p.currentPrice);
    Mul(ItemsInLot(p), p.currentPrice)
  }

  /**
   * `calculateQuantityLotsFromPercent`: the whole lots closest to `percent`
   * of `portfolioPrice` at the item's lot price, and the items they hold.
   */
  function LotsFromPercent(percent: real, item: Position, portfolioPrice: real): (t: Trade)
    requires Tradable(item)
    ensures var exact := Div(Mul(percent, portfolioPrice), PriceForLot(item));
      && exact - 0.5 <= t.lots <= exact + 0.5
      && (t.lots == 0.0 <==> -0.5 < exact < 0.5)
    ensures t.quantity == Mul(t.lots, ItemsInLot(item))
  {
    var lots := Nearest(Div(Mul(percent, portfolioPrice), PriceForLot(item))) as real;
    Trade(lots, Mul(lots, ItemsInLot(item)))
  }

  /** The target's share of figi `k`; 0 when it does not hold it. */
  function TargetPercent(target: map<string, Proportion>, k: string): real
  {
    if k in target then target[k].percent else 0.0
  }

  /** The source's positions can be traded in lots. */
  predicate AllTradable(source: map<string, Proportion>)
  {
    forall k :: k in source ==> Tradable(source[k].position)
  }

  /** The lots that close the gap for figi `k`, at the source's lot price. */
  function GapLots(source: map<string, Proportion>, target: map<string, Proportion>, k: string, targetTotal: real): Trade
    requires k in source && Tradable(source[k].position)
  {
    var gap := source[k].percent - TargetPercent(target, k);
    LotsFromPercent(if gap >= 0.0 then gap else -gap, source[k].position, targetTotal)
  }

  /** The target holds less of figi `k` than the source, by at least half a lot. */
  predicate IsBuy(source: map<string, Proportion>, target: map<string, Proportion>, k: string, targetTotal: real)
    requires AllTradable(source)
  {
    k in source && source[k].percent > TargetPercent(target, k) && GapLots(source, target, k, targetTotal).lots != 0.0
  }

  /** The target holds more of figi `k` than the source, by at least half a lot. */
  predicate IsSell(source: map<string, Proportion>, target: map<string, Proportion>, k: string, targetTotal: real)
    requires AllTradable(source)
  {
    k in source && source[k].percent < TargetPercent(target, k) && GapLots(source, target, k, targetTotal).lots != 0.0
  }

  /** The purchases: the gap of every figi the target holds too little of. */
  function BuyOrders(source: map<string, Proportion>, target: map<string, Proportion>, targetTotal: real): (r: map<string, Trade>)
    requires AllTradable(source)
    ensures forall k :: k in r ==> k in source && source[k].percent > TargetPercent(target, k) && r[k].lots != 0.0
  {
    map k | k in source && IsBuy(source, target, k, targetTotal) :: GapLots(source, target, k, targetTotal)
  }

  /** The sales: the gap of every figi the target holds too much of, and every figi only the target holds, whole. */
  function SellOrders(source: map<string, Proportion>, target: map<string, Proportion>, targetTotal: real): (r: map<string, Trade>)
    requires AllTradable(source)
    ensures forall k :: k in target && k !in source ==> k in r
    ensures forall k :: k in r && k in source ==> source[k].percent < TargetPercent(target, k) && r[k].lots != 0.0
  {
    map k | k in source.Keys + target.Keys && (IsSell(source, target, k, targetTotal) || (k in target && k !in source))
      :: if k in source then GapLots(source, target, k, targetTotal) else Whole(target[k])
  }

  /** A whole target position as an order. */
  function Whole(p: Proportion): (t: Trade)
    ensures t.lots == p.position.quantityLots && t.quantity == p.position.quantity
  {
    Trade(p.position.quantityLots, p.position.quantity)
  }

  /** No figi is both bought and sold. */
  lemma BuyAndSellDisjoint(source: map<string, Proportion>, target: map<string, Proportion>, targetTotal: real)
    requires AllTradable(source)
    ensures BuyOrders(source, target, targetTotal).Keys !! SellOrders(source, target, targetTotal).Keys
  {
    var buy, sell := BuyOrders(source, target, targetTotal), SellOrders(source, target, targetTotal);
    forall k | k in buy && k in sell
      ensures false
    {
    }
  }

  /** A target already in the source's proportions is left alone. */
  lemma SameProportionsNoOrders(source: map<string, Proportion>, target: map<string, Proportion>, targetTotal: real)
    requires AllTradable(source)
    requires target.Keys == source.Keys
    requires forall k :: k in source ==> source[k].percent == target[k].percent
    ensures BuyOrders(source, target, targetTotal) == map[]
    ensures SellOrders(source, target, targetTotal) == map[]
  {
    assert forall k :: k !in BuyOrders(source, target, targetTotal);
    assert forall k :: k !in SellOrders(source, target, targetTotal);
  }

  /** A gap worth less than half a lot of the target's total is not traded. */
  lemma SmallGapNotTraded(source: map<string, Proportion>, target: map<string, Proportion>, targetTotal: real, k: string)
    requires AllTradable(source) && k in source
    requires var gap := source[k].percent - TargetPercent(target, k);
      var exact := Div(Mul(if gap >= 0.0 then gap else -gap, targetTotal), PriceForLot(source[k].position));
      -0.5 < exact < 0.5
    ensures k !in BuyOrders(source, target, targetTotal)
    ensures k !in SellOrders(source, target, targetTotal)
  {
  }

  /** A figi the source holds and the target lacks is bought, by the lots nearest the source's share. */
  lemma NewFigiBought(source: map<string, Proportion>, target: map<string, Proportion>, targetTotal: real, k: string)
    requires AllTradable(source) && k in source && k !in target
    requires source[k].percent > 0.0
    requires GapLots(source, target, k, targetTotal).lots != 0.0
    ensures k in BuyOrders(source, target, targetTotal)
    ensures BuyOrders(source, target, targetTotal)[k] == LotsFromPercent(source[k].percent, source[k].position, targetTotal)
  {
  }

  /**
   * A target holding nothing but cash, at a total of zero, gets no orders:
   * every gap is worth zero lots.
   */
  lemma ZeroTargetNoOrders(source: map<string, Proportion>)
    requires AllTradable(source)
    ensures BuyOrders(source, map[], 0.0) == map[]
    ensures SellOrders(source, map[], 0.0) == map[]
  {
  }

  /**
   * `analyzePortfolio.calculatePortfolioProportions`. `target` is the target
   * portfolio, None when fetching it failed. Builds the orders that bring
   * the target to the source's proportions and, when there are any, moves
   * to "trade" and passes them to `fulfillTrades`.
   */
  method CalculatePortfolioProportions(
    m: Machine<Handler, Arg>, portfolio: seq<Position>, totalPortfolioPrice: real, target: Option<TargetPortfolio>)
    returns (orders: Orders)
    requires m.transitions == Transitions
    requires totalPortfolioPrice != 0.0 || ByFigi(portfolio) == map[]
    requires forall i :: 0 <= i < |portfolio| && !IsMainPortfolioCurrency(portfolio[i]) ==> Tradable(portfolio[i])
    requires target.Some? ==> TargetTotal(target.value) != 0.0 || ByFigi(target.value.positions) == map[]
    modifies m
    ensures target.None? ==> orders == Orders(map[], map[]) && m.state == old(m.state) && m.invoked == old(m.invoked)
    ensures target.Some? ==>
              var source := Proportions(portfolio, totalPortfolioPrice);
              var total := TargetTotal(target.value);
              var goal := Proportions(target.value.positions, total);
              && AllTradable(source)
              && orders == Orders(BuyOrders(source, goal, total), SellOrders(source, goal, total))
    ensures target.Some? && orders.buy == map[] && orders.sell == map[]
            ==> m.state == old(m.state) && m.invoked == old(m.invoked)
    ensures target.Some? && (orders.buy != map[] || orders.sell != map[])
            ==> m.state == "trade" && m.invoked == old(m.invoked) + [Invocation(TradeFulfillTrades, [OrdersArg(orders)])]
  {
    orders := Orders(map[], map[]);
    var source := CalcPortfolioProportion(portfolio, totalPortfolioPrice);
    if target.None? {
      return;
    }
    var total := TargetTotal(target.value);
    var goal := CalcPortfolioProportion(target.value.positions, total);
    orders := QueueOrders(source, goal, total);
    if |orders.buy| > 0 || |orders.sell| > 0 {
      m.ChangeState("trade");
      var _ := m.Dispatch("fulfillTrades", [OrdersArg(orders)]);
    }
  }

  /**
   * The two `forEach` passes of `calculatePortfolioProportions`: each source
   * figi is compared with the target and struck from it, then whatever the
   * target still holds is sold.
   */
  method QueueOrders(source: map<string, Proportion>, goal: map<string, Proportion>, total: real) returns (orders: Orders)
    requires AllTradable(source)
    ensures orders == Orders(BuyOrders(source, goal, total), SellOrders(source, goal, total))
  {
    var buy, sell, left := CompareWithTarget(source, goal, total);
    sell := SellLeftovers(sell, left);
    orders := Orders(buy, sell);
    assert buy == BuyOrders(source, goal, total);
    assert sell == SellOrders(source, goal, total);
  }

  /** The first pass: the gap orders of every source figi, and the target's figis the source lacks. */
  method CompareWithTarget(source: map<string, Proportion>, goal: map<string, Proportion>, total: real)
    returns (buy: map<string, Trade>, sell: map<string, Trade>, left: map<string, Proportion>)
    requires AllTradable(source)
    ensures forall k :: k in buy <==> IsBuy(source, goal, k, total)
    ensures forall k :: k in buy ==> k in source && buy[k] == GapLots(source, goal, k, total)
    ensures forall k :: k in sell <==> IsSell(source, goal, k, total)
    ensures forall k :: k in sell ==> k in source && sell[k] == GapLots(source, goal, k, total)
    ensures forall k :: k in left <==> k in goal && k !in source
    ensures forall k :: k in left ==> left[k] == goal[k]
  {
    buy, sell, left := map[], map[], goal;
    var todo := source.Keys;
    while todo != {}
      invariant todo <= source.Keys
      invariant forall k :: k in buy <==> k !in todo && IsBuy(source, goal, k, total)
      invariant forall k :: k in buy ==> k in source && buy[k] == GapLots(source, goal, k, total)
      invariant forall k :: k in sell <==> k !in todo && IsSell(source, goal, k, total)
      invariant forall k :: k in sell ==> k in source && sell[k] == GapLots(source, goal, k, total)
      invariant forall k :: k in left <==> k in goal && (k !in source || k in todo)
      invariant forall k :: k in left ==> left[k] == goal[k]
      decreases |todo|
    {
      var k :| k in todo;
      var item := source[k];
      var mark := TargetPercent(left, k);
      assert mark == TargetPercent(goal, k);
      if item.percent > mark {
        var t := LotsFromPercent(item.percent - mark, item.position, total);
        if t.lots != 0.0 {
          buy := buy[k := t];
        }
      } else if item.percent < mark {
        var t := LotsFromPercent(mark - item.percent, item.position, total);
        if t.lots != 0.0 {
          sell := sell[k := t];
        }
      }
      left := left - {k};
      todo := todo - {k};
    }
  }

  /** The second pass: every position left in the target is sold whole. */
  method SellLeftovers(sell: map<string, Trade>, left: map<string, Proportion>) returns (r: map<string, Trade>)
    ensures forall k :: k in r <==> k in sell || k in left
    ensures forall k :: k in left ==> r[k] == Whole(left[k])
    ensures forall k :: k in sell && k !in left ==> r[k] == sell[k]
  {
    r := sell;
    var rest := left.Keys;
    while rest != {}
      invariant rest <= left.Keys
      invariant forall k :: k in r <==> k in sell || (k in left && k !in rest)
      invariant forall k :: k in left && k !in rest ==> r[k] == Whole(left[k])
      invariant forall k :: k in sell && (k !in left || k in rest) ==> r[k] == sell[k]
      decreases |rest|
    {
      var k :| k in rest;
      r := r[k := Whole(left[k])];
      rest := rest - {k};
    }
  }

  /** The lots of each order, keyed by figi. */
  function LotsOf(trades: map<string, Trade>): (lots: map<string, real>)
    ensures lots.Keys == trades.Keys
    ensures forall k :: k in lots ==> lots[k] == trades[k].lots
  {
    map k | k in trades :: trades[k].lots
  }

  /**
   * `trade.fulfillTrades` as written: every sale is placed on the target
   * portfolio, and only then every purchase. `saleFailed` says that some
   * sale was rejected: its `.catch` chains `.then` onto the value the logger
   * returns, which is not a promise, so the batch of sales rejects and the
   * purchases are never placed. With no sale at all nothing can be rejected.
   */
  function FulfillTrades(orders: Orders, saleFailed: bool): (calls: seq<ApiCall>)
    requires saleFailed ==> orders.sell != map[]
    ensures |calls| >= 1 && calls[0] == SellBatch(LotsOf(orders.sell))
    ensures calls[0].lots.Keys == orders.sell.Keys
    ensures forall k :: k in orders.sell ==> calls[0].lots[k] == orders.sell[k].lots
    ensures |calls| == 2 <==> !saleFailed
    ensures |calls| == 2 ==> calls[1].BuyBatch? && calls[1].lots.Keys == orders.buy.Keys
    ensures |calls| == 2 ==> forall k :: k in orders.buy ==> calls[1].lots[k] == orders.buy[k].lots
    ensures forall i :: 0 <= i < |calls| ==> (calls[i].BuyBatch? <==> i == 1)
  {
    [SellBatch(LotsOf(orders.sell))] + (if saleFailed then [] else [BuyBatch(LotsOf(orders.buy))])
  }

  /** As written, one rejected sale means no purchase is placed at all. */
  lemma FailedSaleSkipsBuys(orders: Orders)
    requires orders.sell != map[] && orders.buy != map[]
    ensures forall c :: c in FulfillTrades(orders, true) ==> !c.BuyBatch?
    ensures exists c :: c in FulfillTrades(orders, false) && c.BuyBatch? && c.lots != map[]
  {
    var calls := FulfillTrades(orders, false);
    var k :| k in orders.buy;
    assert k in calls[1].lots;
    assert calls[1] in calls;
  }

  /**
   * `trade.fulfillTrades` as intended: a rejected sale is logged and the
   * purchases still follow the sales.
   */
  function FulfillTradesIntended(orders: Orders): (calls: seq<ApiCall>)
    ensures |calls| == 2 && calls[0].SellBatch? && calls[1].BuyBatch?
    ensures calls[0].lots.Keys == orders.sell.Keys && calls[1].lots.Keys == orders.buy.Keys
    ensures forall k :: k in orders.sell ==> calls[0].lots[k] == orders.sell[k].lots
    ensures forall k :: k in orders.buy ==> calls[1].lots[k] == orders.buy[k].lots
  {
    [SellBatch(LotsOf(orders.sell)), BuyBatch(LotsOf(orders.buy))]
  }

  /** When every sale goes through, the source's calls are the intended ones; after a rejected sale they are only the sales. */
  lemma IntendedAgreesWithoutFailure(orders: Orders)
    ensures FulfillTrades(orders, false) == FulfillTradesIntended(orders)
    ensures orders.sell != map[] ==> FulfillTrades(orders, true) == FulfillTradesIntended(orders)[..1]
  {
  }
}
