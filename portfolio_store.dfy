/**
 * The portfolio store of `usePortfolio`: a list of holdings, one per coin when built through
 * `addToPortfolio`, with a weighted-average cost basis, and the valuation of the list against a
 * map of live prices. The generated item id and the timestamp are parameters (`stamp` stands
 * for `Date.now()`, `now` for `new Date().toISOString()`).
 */
module PortfolioStore {
  import opened Optional
  import opened Seqs
  import opened Crypto

  /** A holding: `PortfolioItem`. */
  datatype Item = Item(
    id: string,
    coinId: string,
    symbol: string,
    name: string,
    image: string,
    amount: real,
    averagePrice: real,
    dateAdded: string)

  /** `PortfolioStats`. */
  datatype Stats = Stats(totalValue: real, totalInvested: real, totalPnL: real, totalPnLPercentage: real)

  /** Every holding has a positive amount, so a merged total amount is never zero. */
  predicate AmountsPositive(items: seq<Item>) {
    forall i :: 0 <= i < |items| ==> items[i].amount > 0.0
  }

  /** No two holdings refer to the same coin. */
  predicate UniqueCoins(items: seq<Item>) {
    DistinctBy(items, CoinIdOf)
  }

  function CoinIdOf(item: Item): string {
    item.coinId
  }

  /** `portfolio.find((item) => item.coinId === coinId)`, as the position of the item found. */
  function FindCoin(items: seq<Item>, coinId: string): (r: Option<nat>)
    ensures r.None? <==> forall i :: 0 <= i < |items| ==> items[i].coinId != coinId
    ensures r.Some? ==> r.value < |items| && items[r.value].coinId == coinId
    ensures r.Some? ==> forall i :: 0 <= i < r.value ==> items[i].coinId != coinId
  {
    FindFirst(items, (item: Item) => item.coinId == coinId)
  }

  /** The item created for a coin not yet held. */
  function NewItem(coin: Coin, amount: real, price: real, stamp: string, now: string): Item {
    Item(coin.id + "-" + stamp, coin.id, coin.symbol, coin.name, coin.image, amount, price, now)
  }

  /** `prev.map(...)` of the merge: every holding of `coinId` gets the new amount and average. */
  function MergeCoin(items: seq<Item>, coinId: string, amount: real, averagePrice: real, now: string): seq<Item> {
    seq(|items|, i requires 0 <= i < |items| =>
      if items[i].coinId == coinId
      then items[i].(amount := amount, averagePrice := averagePrice, dateAdded := now)
      else items[i])
  }

  /**
   * `(amount1 * price1 + amount2 * price2) / (amount1 + amount2)`: the average price of two
   * lots taken together.
   */
  function WeightedAverage(amount1: real, price1: real, amount2: real, price2: real): real
    requires amount1 + amount2 != 0.0
  {
    (amount1 * price1 + amount2 * price2) / (amount1 + amount2)
  }

  /** The portfolio after `addToPortfolio(coin, amount, price)`. */
  function Added(items: seq<Item>, coin: Coin, amount: real, price: real, stamp: string, now: string): (r: seq<Item>)
    requires AmountsPositive(items) && amount > 0.0
    ensures AmountsPositive(r)
  {
    match FindCoin(items, coin.id)
    case Some(k) =>
      var existing := items[k];
      MergeCoin(items, coin.id, existing.amount + amount,
        WeightedAverage(existing.amount, existing.averagePrice, amount, price), now)
    case None =>
      items + [NewItem(coin, amount, price, stamp, now)]
  }

  /** The portfolio after `removeFromPortfolio(itemId)`. */
  function Removed(items: seq<Item>, itemId: string): seq<Item> {
    Filter(items, (item: Item) => item.id != itemId)
  }

  /** The portfolio after `updatePortfolioItem(itemId, amount, price)`. */
  function Updated(items: seq<Item>, itemId: string, amount: real, price: real, now: string): seq<Item> {
    seq(|items|, i requires 0 <= i < |items| =>
      if items[i].id == itemId
      then items[i].(amount := amount, averagePrice := price, dateAdded := now)
      else items[i])
  }

  /** `currentPrices[item.coinId] || 0`: a missing price counts as 0. */
  function PriceOf(prices: map<string, real>, coinId: string): real {
    if coinId in prices then prices[coinId] else 0.0
  }

  /** What a holding is worth at the live price. */
  function CurrentValue(item: Item, prices: map<string, real>): real {
    item.amount * PriceOf(prices, item.coinId)
  }

  /** What a holding cost. */
  function Invested(item: Item): real {
    item.amount * item.averagePrice
  }

  /** `invested > 0 ? (pnl / invested) * 100 : 0`. */
  function PnLPercentage(pnl: real, invested: real): real {
    if invested > 0.0 then pnl / invested * 100.0 else 0.0
  }

  function TotalValue(items: seq<Item>, prices: map<string, real>): real {
    Sum(items, (item: Item) => CurrentValue(item, prices))
  }

  function TotalInvested(items: seq<Item>): real {
    Sum(items, (item: Item) => Invested(item))
  }

  class Portfolio {
    var items: seq<Item>

    ghost predicate Valid()
      reads this
    {
      AmountsPositive(items) && UniqueCoins(items)
    }

    /** `useState<PortfolioItem[]>([])`. */
    constructor ()
      ensures Valid() && items == []
    {
      items := [];
    }

    /**
     * `addToPortfolio`: merge into the holding of the same coin with a weighted-average price,
     * or append a new holding.
     */
    method AddToPortfolio(coin: Coin, amount: real, price: real, stamp: string, now: string)
      requires Valid() && amount > 0.0
      modifies this
      ensures Valid()
      ensures items == Added(old(items), coin, amount, price, stamp, now)
    {
      var existing := FindCoin(items, coin.id);
      if existing.Some? {
        var item := items[existing.value];
        var totalAmount := item.amount + amount;
        var newAveragePrice := WeightedAverage(item.amount, item.averagePrice, amount, price);
        items := MergeCoin(items, coin.id, totalAmount, newAveragePrice, now);
      } else {
        var newItem := NewItem(coin, amount, price, stamp, now);
        items := items + [newItem];
      }
      AddKeepsCoinsUnique(old(items), coin, amount, price, stamp, now);
    }

    /** `removeFromPortfolio`. */
    method RemoveFromPortfolio(itemId: string)
      requires Valid()
      modifies this
      ensures Valid()
      ensures items == Removed(old(items), itemId)
    {
      items := Removed(items, itemId);
      RemoveKeepsInvariants(old(items), itemId);
    }

    /** `updatePortfolioItem`: overwrite the amount and average price of the named holding. */
    method UpdatePortfolioItem(itemId: string, amount: real, price: real, now: string)
      requires Valid() && amount > 0.0
      modifies this
      ensures Valid()
      ensures items == Updated(old(items), itemId, amount, price, now)
    {
      items := Updated(items, itemId, amount, price, now);
      UpdateKeepsInvariants(old(items), itemId, amount, price, now);
    }

    /** `calculateStats`: the `forEach` accumulation of value and cost, then the P&L. */
    method CalculateStats(currentPrices: map<string, real>) returns (stats: Stats)
      ensures stats.totalValue == TotalValue(items, currentPrices)
      ensures stats.totalInvested == TotalInvested(items)
      ensures stats.totalPnL == stats.totalValue - stats.totalInvested
      ensures stats.totalPnLPercentage == PnLPercentage(stats.totalPnL, stats.totalInvested)
      ensures items == [] ==> stats == Stats(0.0, 0.0, 0.0, 0.0)
    {
      var totalValue := 0.0;
      var totalInvested := 0.0;
      var i := 0;
      while i < |items|
        invariant 0 <= i <= |items|
        invariant totalValue == TotalValue(items[..i], currentPrices)
        invariant totalInvested == TotalInvested(items[..i])
      {
        var item := items[i];
        var currentPrice := PriceOf(currentPrices, item.coinId);
        assert items[..i + 1][..i] == items[..i];
        totalValue := totalValue + item.amount * currentPrice;
        totalInvested := totalInvested + item.amount * item.averagePrice;
        i := i + 1;
      }
      assert items[..i] == items;
      var totalPnL := totalValue - totalInvested;
      var totalPnLPercentage := if totalInvested > 0.0 then totalPnL / totalInvested * 100.0 else 0.0;
      stats := Stats(totalValue, totalInvested, totalPnL, totalPnLPercentage);
    }
  }

  // ----- addToPortfolio -----

  /**
   * Adding a coin not yet held appends exactly one holding at the end, built from the coin,
   * the amount and the price; the earlier holdings are unchanged.
   */
  lemma AddNewAppends(items: seq<Item>, coin: Coin, amount: real, price: real, stamp: string, now: string)
    requires AmountsPositive(items) && amount > 0.0
    requires forall i :: 0 <= i < |items| ==> items[i].coinId != coin.id
    ensures var r := Added(items, coin, amount, price, stamp, now);
      && |r| == |items| + 1
      && r[..|items|] == items
      && r[|items|].coinId == coin.id && r[|items|].id == coin.id + "-" + stamp
      && r[|items|].symbol == coin.symbol && r[|items|].name == coin.name && r[|items|].image == coin.image
      && r[|items|].amount == amount && r[|items|].averagePrice == price && r[|items|].dateAdded == now
  {
  }

  /**
   * Adding a coin already held keeps the length and the positions. The first holding of that
   * coin (the one `find` returns) gets the summed amount and the weighted-average price, and
   * keeps its id, symbol, name and image; every holding of that coin takes the same values, and
   * every holding of another coin is unchanged.
   */
  lemma AddExistingMerges(items: seq<Item>, coin: Coin, amount: real, price: real, stamp: string, now: string, k: nat)
    requires AmountsPositive(items) && amount > 0.0
    requires k < |items| && items[k].coinId == coin.id
    requires forall i :: 0 <= i < k ==> items[i].coinId != coin.id
    ensures var r := Added(items, coin, amount, price, stamp, now);
      && |r| == |items|
      && r[k].amount == items[k].amount + amount
      && r[k].averagePrice == WeightedAverage(items[k].amount, items[k].averagePrice, amount, price)
      && r[k].id == items[k].id && r[k].coinId == items[k].coinId
      && r[k].symbol == items[k].symbol && r[k].name == items[k].name && r[k].image == items[k].image
      && r[k].dateAdded == now
      && (forall i :: 0 <= i < |items| && items[i].coinId == coin.id ==>
            r[i] == items[i].(amount := r[k].amount, averagePrice := r[k].averagePrice, dateAdded := now))
      && (forall i :: 0 <= i < |items| && items[i].coinId != coin.id ==> r[i] == items[i])
  {
    assert FindCoin(items, coin.id) == Some(k);
  }

  /**
   * Adding keeps one holding per coin: if no coin was held twice before, none is afterwards,
   * and the added coin is held afterwards.
   */
  lemma AddKeepsCoinsUnique(items: seq<Item>, coin: Coin, amount: real, price: real, stamp: string, now: string)
    requires AmountsPositive(items) && amount > 0.0
    ensures var r := Added(items, coin, amount, price, stamp, now);
      && (UniqueCoins(items) ==> UniqueCoins(r))
      && exists i :: 0 <= i < |r| && r[i].coinId == coin.id
  {
    var r := Added(items, coin, amount, price, stamp, now);
    match FindCoin(items, coin.id)
    case Some(k) =>
      assert r[k].coinId == coin.id;
    case None =>
      assert r[|items|].coinId == coin.id;
  }

  /** With positive amounts, the merged average lies between the old average and the new price. */
  lemma AddAverageBetween(items: seq<Item>, coin: Coin, amount: real, price: real, stamp: string, now: string, k: nat)
    requires AmountsPositive(items) && amount > 0.0
    requires k < |items| && items[k].coinId == coin.id
    requires forall i :: 0 <= i < k ==> items[i].coinId != coin.id
    ensures var avg := Added(items, coin, amount, price, stamp, now)[k].averagePrice;
      && (items[k].averagePrice <= price ==> items[k].averagePrice <= avg <= price)
      && (price <= items[k].averagePrice ==> price <= avg <= items[k].averagePrice)
  {
    AddExistingMerges(items, coin, amount, price, stamp, now, k);
    WeightedAverageBetween(items[k].amount, items[k].averagePrice, amount, price);
  }

  lemma WeightedAverageBetween(a: real, p: real, q: real, x: real)
    requires a > 0.0 && q > 0.0
    ensures p <= x ==> p <= WeightedAverage(a, p, q, x) <= x
    ensures x <= p ==> x <= WeightedAverage(a, p, q, x) <= p
  {
    var d := a + q;
    var avg := (a * p + q * x) / d;
    assert avg - p == q * (x - p) / d;
    assert x - avg == a * (x - p) / d;
    MulSign(q, x - p);
    MulSign(a, x - p);
    DivSign(q * (x - p), d);
    DivSign(a * (x - p), d);
  }

  lemma MulSign(a: real, b: real)
    requires a >= 0.0
    ensures b >= 0.0 ==> a * b >= 0.0
    ensures b <= 0.0 ==> a * b <= 0.0
  {
  }

  lemma DivSign(n: real, d: real)
    requires d > 0.0
    ensures n >= 0.0 ==> n / d >= 0.0
    ensures n <= 0.0 ==> n / d <= 0.0
  {
  }

  /** The amount times the average is the cost of both lots. */
  lemma WeightedAverageCost(a: real, p: real, q: real, x: real)
    requires a + q != 0.0
    ensures (a + q) * WeightedAverage(a, p, q, x) == a * p + q * x
  {
  }

  /** Averaging three lots does not depend on which two are averaged first. */
  lemma WeightedAverageAssociative(a: real, p: real, q1: real, p1: real, q2: real, p2: real)
    requires a > 0.0 && q1 > 0.0 && q2 > 0.0
    ensures WeightedAverage(a + q1, WeightedAverage(a, p, q1, p1), q2, p2)
         == WeightedAverage(a, p, q1 + q2, WeightedAverage(q1, p1, q2, p2))
  {
    WeightedAverageCost(a, p, q1, p1);
    WeightedAverageCost(q1, p1, q2, p2);
    var left := WeightedAverage(a + q1, WeightedAverage(a, p, q1, p1), q2, p2);
    var right := WeightedAverage(a, p, q1 + q2, WeightedAverage(q1, p1, q2, p2));
    assert left == (a * p + q1 * p1 + q2 * p2) / (a + q1 + q2);
    assert right == (a * p + q1 * p1 + q2 * p2) / (a + q1 + q2);
  }

  /**
   * Adding a coin not yet held twice, (q1, p1) then (q2, p2), leaves one new holding of
   * q1 + q2 units at their weighted-average price.
   */
  lemma AddTwiceFresh(items: seq<Item>, coin: Coin, q1: real, p1: real, q2: real, p2: real,
                      stamp1: string, now1: string, stamp2: string, now2: string)
    requires AmountsPositive(items) && q1 > 0.0 && q2 > 0.0
    requires forall i :: 0 <= i < |items| ==> items[i].coinId != coin.id
    ensures var once := Added(items, coin, q1, p1, stamp1, now1);
      var r := Added(once, coin, q2, p2, stamp2, now2);
      && |r| == |items| + 1
      && r[..|items|] == items
      && r[|items|].id == coin.id + "-" + stamp1
      && r[|items|].amount == q1 + q2
      && r[|items|].averagePrice == WeightedAverage(q1, p1, q2, p2)
  {
    var once := Added(items, coin, q1, p1, stamp1, now1);
    AddNewAppends(items, coin, q1, p1, stamp1, now1);
    AddExistingMerges(once, coin, q2, p2, stamp2, now2, |items|);
    var r := Added(once, coin, q2, p2, stamp2, now2);
    assert forall i :: 0 <= i < |items| ==> r[i] == once[i];
  }

  /** Merging twice into the same coin is merging once with the second values. */
  lemma MergeTwice(items: seq<Item>, coinId: string, a1: real, p1: real, now1: string, a2: real, p2: real, now2: string)
    ensures MergeCoin(MergeCoin(items, coinId, a1, p1, now1), coinId, a2, p2, now2) == MergeCoin(items, coinId, a2, p2, now2)
  {
  }

  /**
   * Merging is associative: adding (q1, p1) and then (q2, p2) leaves the same portfolio as one
   * add of q1 + q2 units at their weighted-average price, whether or not the coin was held.
   */
  lemma AddAssociative(items: seq<Item>, coin: Coin, q1: real, p1: real, q2: real, p2: real,
                       stamp: string, now1: string, stamp2: string, now2: string)
    requires AmountsPositive(items) && q1 > 0.0 && q2 > 0.0
    ensures Added(Added(items, coin, q1, p1, stamp, now1), coin, q2, p2, stamp2, now2)
         == Added(items, coin, q1 + q2, WeightedAverage(q1, p1, q2, p2), stamp, now2)
  {
    match FindCoin(items, coin.id)
    case None => AddAssociativeFresh(items, coin, q1, p1, q2, p2, stamp, now1, stamp2, now2);
    case Some(k) => AddAssociativeHeld(items, coin, q1, p1, q2, p2, stamp, now1, stamp2, now2, k);
  }

  lemma AddAssociativeFresh(items: seq<Item>, coin: Coin, q1: real, p1: real, q2: real, p2: real,
                            stamp: string, now1: string, stamp2: string, now2: string)
    requires AmountsPositive(items) && q1 > 0.0 && q2 > 0.0
    requires forall i :: 0 <= i < |items| ==> items[i].coinId != coin.id
    ensures Added(Added(items, coin, q1, p1, stamp, now1), coin, q2, p2, stamp2, now2)
         == Added(items, coin, q1 + q2, WeightedAverage(q1, p1, q2, p2), stamp, now2)
  {
    var once := Added(items, coin, q1, p1, stamp, now1);
    var twice := Added(once, coin, q2, p2, stamp2, now2);
    var single := Added(items, coin, q1 + q2, WeightedAverage(q1, p1, q2, p2), stamp, now2);
    AddNewAppends(items, coin, q1, p1, stamp, now1);
    AddNewAppends(items, coin, q1 + q2, WeightedAverage(q1, p1, q2, p2), stamp, now2);
    AddExistingMerges(once, coin, q2, p2, stamp2, now2, |items|);
    assert twice[..|items|] == items;
    assert twice[|items|] == single[|items|];
    assert twice == twice[..|items|] + [twice[|items|]];
    assert single == single[..|items|] + [single[|items|]];
  }

  lemma AddAssociativeHeld(items: seq<Item>, coin: Coin, q1: real, p1: real, q2: real, p2: real,
                           stamp: string, now1: string, stamp2: string, now2: string, k: nat)
    requires AmountsPositive(items) && q1 > 0.0 && q2 > 0.0
    requires k < |items| && items[k].coinId == coin.id
    requires forall i :: 0 <= i < k ==> items[i].coinId != coin.id
    ensures Added(Added(items, coin, q1, p1, stamp, now1), coin, q2, p2, stamp2, now2)
         == Added(items, coin, q1 + q2, WeightedAverage(q1, p1, q2, p2), stamp, now2)
  {
    var a, p := items[k].amount, items[k].averagePrice;
    var once := Added(items, coin, q1, p1, stamp, now1);
    assert FindCoin(items, coin.id) == Some(k);
    AddExistingMerges(items, coin, q1, p1, stamp, now1, k);
    assert FindCoin(once, coin.id) == Some(k);
    WeightedAverageAssociative(a, p, q1, p1, q2, p2);
    MergeTwice(items, coin.id, a + q1, WeightedAverage(a, p, q1, p1), now1,
      a + q1 + q2, WeightedAverage(a, p, q1 + q2, WeightedAverage(q1, p1, q2, p2)), now2);
  }

  /**
   * Adding conserves the cost basis: with one holding per coin, the total invested grows by
   * exactly amount * price, and the total value by amount times the coin's live price.
   */
  lemma AddCostBasis(items: seq<Item>, coin: Coin, amount: real, price: real, stamp: string, now: string,
                     prices: map<string, real>)
    requires AmountsPositive(items) && amount > 0.0 && UniqueCoins(items)
    ensures TotalInvested(Added(items, coin, amount, price, stamp, now)) == TotalInvested(items) + amount * price
    ensures TotalValue(Added(items, coin, amount, price, stamp, now), prices)
         == TotalValue(items, prices) + amount * PriceOf(prices, coin.id)
  {
    match FindCoin(items, coin.id)
    case None => AddCostBasisFresh(items, coin, amount, price, stamp, now, prices);
    case Some(k) => AddCostBasisHeld(items, coin, amount, price, stamp, now, prices, k);
  }

  lemma AddCostBasisFresh(items: seq<Item>, coin: Coin, amount: real, price: real, stamp: string, now: string,
                          prices: map<string, real>)
    requires AmountsPositive(items) && amount > 0.0
    requires forall i :: 0 <= i < |items| ==> items[i].coinId != coin.id
    ensures TotalInvested(Added(items, coin, amount, price, stamp, now)) == TotalInvested(items) + amount * price
    ensures TotalValue(Added(items, coin, amount, price, stamp, now), prices)
         == TotalValue(items, prices) + amount * PriceOf(prices, coin.id)
  {
    var last := NewItem(coin, amount, price, stamp, now);
    assert Added(items, coin, amount, price, stamp, now) == items + [last];
    SumSnoc(items, last, (item: Item) => Invested(item));
    SumSnoc(items, last, (item: Item) => CurrentValue(item, prices));
  }

  lemma AddCostBasisHeld(items: seq<Item>, coin: Coin, amount: real, price: real, stamp: string, now: string,
                         prices: map<string, real>, k: nat)
    requires AmountsPositive(items) && amount > 0.0 && UniqueCoins(items)
    requires k < |items| && items[k].coinId == coin.id
    ensures TotalInvested(Added(items, coin, amount, price, stamp, now)) == TotalInvested(items) + amount * price
    ensures TotalValue(Added(items, coin, amount, price, stamp, now), prices)
         == TotalValue(items, prices) + amount * PriceOf(prices, coin.id)
  {
    var r := Added(items, coin, amount, price, stamp, now);
    AddChangesOneHolding(items, coin, amount, price, stamp, now, k);
    var a, p0 := items[k].amount, items[k].averagePrice;
    WeightedAverageCost(a, p0, amount, price);
    assert Invested(r[k]) == Invested(items[k]) + amount * price;
    assert CurrentValue(r[k], prices) == CurrentValue(items[k], prices) + amount * PriceOf(prices, coin.id);
    SumPointUpdate(items, r, k, (item: Item) => Invested(item));
    assert TotalInvested(r) == TotalInvested(items) - Invested(items[k]) + Invested(r[k]);
    SumPointUpdate(items, r, k, (item: Item) => CurrentValue(item, prices));
    assert TotalValue(r, prices) == TotalValue(items, prices) - CurrentValue(items[k], prices) + CurrentValue(r[k], prices);
  }

  /** With one holding per coin, merging changes the found holding only. */
  lemma AddChangesOneHolding(items: seq<Item>, coin: Coin, amount: real, price: real, stamp: string, now: string, k: nat)
    requires AmountsPositive(items) && amount > 0.0 && UniqueCoins(items)
    requires k < |items| && items[k].coinId == coin.id
    ensures var r := Added(items, coin, amount, price, stamp, now);
      && |r| == |items|
      && r[k] == items[k].(amount := items[k].amount + amount,
                           averagePrice := WeightedAverage(items[k].amount, items[k].averagePrice, amount, price),
                           dateAdded := now)
      && forall i :: 0 <= i < |items| && i != k ==> r[i] == items[i]
  {
    AddExistingMerges(items, coin, amount, price, stamp, now, k);
    forall i | 0 <= i < |items| && i != k
      ensures items[i].coinId != coin.id
    {
    }
  }

  // ----- removeFromPortfolio -----

  /** Removing drops every holding with that id and keeps every other holding. */
  lemma RemoveDropsId(items: seq<Item>, itemId: string)
    ensures var r := Removed(items, itemId);
      && (forall i :: 0 <= i < |r| ==> r[i].id != itemId)
      && (forall item :: item in r <==> item in items && item.id != itemId)
  {
    FilterMultiset(items, (item: Item) => item.id != itemId);
  }

  /** Removing an absent id is a no-op, and removing twice is removing once. */
  lemma RemoveIdempotent(items: seq<Item>, itemId: string)
    ensures (forall i :: 0 <= i < |items| ==> items[i].id != itemId) ==> Removed(items, itemId) == items
    ensures Removed(Removed(items, itemId), itemId) == Removed(items, itemId)
  {
    FilterIdempotent(items, (item: Item) => item.id != itemId);
    if forall i :: 0 <= i < |items| ==> items[i].id != itemId {
      FilterAll(items, (item: Item) => item.id != itemId);
    }
  }

  /** Removing keeps the relative order of the remaining holdings. */
  lemma RemoveKeepsOrder(items: seq<Item>, itemId: string, i: nat, j: nat)
    requires i < j < |items| && items[i].id != itemId && items[j].id != itemId
    ensures var r := Removed(items, itemId);
      exists i', j' :: 0 <= i' < j' < |r| && r[i'] == items[i] && r[j'] == items[j]
  {
    var r := Removed(items, itemId);
    FilterKeepsOrder(items, (item: Item) => item.id != itemId, i, j);
    var i', j' :| 0 <= i' < j' < |Filter(items, (item: Item) => item.id != itemId)|
      && Filter(items, (item: Item) => item.id != itemId)[i'] == items[i]
      && Filter(items, (item: Item) => item.id != itemId)[j'] == items[j];
    assert r[i'] == items[i] && r[j'] == items[j];
  }

  /** Removing keeps every amount positive and keeps one holding per coin. */
  lemma RemoveKeepsInvariants(items: seq<Item>, itemId: string)
    ensures AmountsPositive(items) ==> AmountsPositive(Removed(items, itemId))
    ensures UniqueCoins(items) ==> UniqueCoins(Removed(items, itemId))
  {
    FilterMultiset(items, (item: Item) => item.id != itemId);
    if UniqueCoins(items) {
      FilterKeepsDistinctBy(items, (item: Item) => item.id != itemId, CoinIdOf);
    }
  }

  // ----- updatePortfolioItem -----

  /**
   * Updating sets amount and average price, and the timestamp, on the holdings with that id
   * only; the length and every other holding are unchanged, so an absent id is a no-op.
   */
  lemma UpdateSpec(items: seq<Item>, itemId: string, amount: real, price: real, now: string)
    ensures var r := Updated(items, itemId, amount, price, now);
      && |r| == |items|
      && (forall i :: 0 <= i < |items| && items[i].id == itemId ==>
            r[i].amount == amount && r[i].averagePrice == price && r[i].dateAdded == now
            && r[i].id == items[i].id && r[i].coinId == items[i].coinId
            && r[i].symbol == items[i].symbol && r[i].name == items[i].name && r[i].image == items[i].image)
      && (forall i :: 0 <= i < |items| && items[i].id != itemId ==> r[i] == items[i])
      && ((forall i :: 0 <= i < |items| ==> items[i].id != itemId) ==> r == items)
  {
  }

  /** With a positive amount, updating keeps every amount positive and one holding per coin. */
  lemma UpdateKeepsInvariants(items: seq<Item>, itemId: string, amount: real, price: real, now: string)
    requires amount > 0.0
    ensures AmountsPositive(items) ==> AmountsPositive(Updated(items, itemId, amount, price, now))
    ensures UniqueCoins(items) ==> UniqueCoins(Updated(items, itemId, amount, price, now))
  {
  }

  // ----- calculateStats -----

  /** The totals of two portfolios side by side are the sums of their totals. */
  lemma TotalsAdditive(a: seq<Item>, b: seq<Item>, prices: map<string, real>)
    ensures TotalValue(a + b, prices) == TotalValue(a, prices) + TotalValue(b, prices)
    ensures TotalInvested(a + b) == TotalInvested(a) + TotalInvested(b)
  {
    SumConcat(a, b, (item: Item) => CurrentValue(item, prices));
    SumConcat(a, b, (item: Item) => Invested(item));
  }

  /**
   * The percentage guard: it is 0 unless something is invested, and it is positive exactly
   * when something is invested and the portfolio is worth more than it cost.
   */
  lemma PnLPercentageSign(value: real, invested: real)
    ensures invested <= 0.0 ==> PnLPercentage(value - invested, invested) == 0.0
    ensures PnLPercentage(value - invested, invested) > 0.0 <==> invested > 0.0 && value > invested
    ensures PnLPercentage(value - invested, invested) < 0.0 <==> invested > 0.0 && value < invested
  {
    if invested > 0.0 {
      var pct := (value - invested) / invested * 100.0;
      assert (value - invested) / invested > 0.0 <==> value - invested > 0.0;
      assert (value - invested) / invested < 0.0 <==> value - invested < 0.0;
    }
  }
}
