/**
 * The portfolio page: the map of live prices built from the coin list, the add-coin form
 * handler with its two error paths, the remove handler, and the per-holding valuation rows.
 * `parseFloat` is a parameter; the toasts are the handler's result.
 */
module PortfolioPage {
  import opened Optional
  import opened Seqs
  import opened Crypto
  import opened PortfolioStore

  /** No coin after position `i` has the id of the coin at `i`. */
  predicate LastWithId(coins: seq<Coin>, i: nat)
    requires i < |coins|
  {
    forall j :: i < j < |coins| ==> coins[j].id != coins[i].id
  }

  /**
   * `currentPrices`: `coins?.forEach((coin) => { priceMap[coin.id] = coin.current_price })`.
   * Its keys are the ids of the coins, and for an id that occurs more than once the last
   * coin with that id wins.
   */
  method CurrentPrices(coins: Option<seq<Coin>>) returns (priceMap: map<string, real>)
    ensures coins.None? ==> priceMap == map[]
    ensures coins.Some? ==>
      forall id :: id in priceMap <==> exists i :: 0 <= i < |coins.value| && coins.value[i].id == id
    ensures coins.Some? ==>
      forall i :: 0 <= i < |coins.value| && LastWithId(coins.value, i) ==>
        priceMap[coins.value[i].id] == coins.value[i].currentPrice
  {
    priceMap := map[];
    if coins.None? {
      return;
    }
    var cs := coins.value;
    var k := 0;
    while k < |cs|
      invariant 0 <= k <= |cs|
      invariant forall id :: id in priceMap <==> exists i :: 0 <= i < k && cs[i].id == id
      invariant forall i :: 0 <= i < k && (forall j :: i < j < k ==> cs[j].id != cs[i].id) ==>
        cs[i].id in priceMap && priceMap[cs[i].id] == cs[i].currentPrice
    {
      priceMap := priceMap[cs[k].id := cs[k].currentPrice];
      k := k + 1;
    }
  }

  /** `coins?.find((c) => c.id === selectedCoin)`, as the position of the coin found. */
  function FindCoinById(coins: Option<seq<Coin>>, id: string): (r: Option<nat>)
    ensures coins.None? ==> r.None?
    ensures coins.Some? ==> (r.None? <==> forall i :: 0 <= i < |coins.value| ==> coins.value[i].id != id)
    ensures r.Some? ==> coins.Some? && r.value < |coins.value| && coins.value[r.value].id == id
    ensures r.Some? ==> forall i :: 0 <= i < r.value ==> coins.value[i].id != id
  {
    match coins
    case None => None
    case Some(cs) => FindFirst(cs, (c: Coin) => c.id == id)
  }

  /** The toast the add handler shows. */
  datatype AddResult =
    | FillAllFields          // "Preencha todos os campos"
    | CoinNotFound           // "Moeda não encontrada"
    | CoinAdded(name: string)

  class PortfolioPage {
    var isAddDialogOpen: bool
    var selectedCoin: string
    var amount: string
    var price: string
    const portfolio: Portfolio

    ghost predicate Valid()
      reads this, portfolio
    {
      portfolio.Valid()
    }

    /** The four `useState` hooks of the form, over the store of `usePortfolio`. */
    constructor (portfolio: Portfolio)
      requires portfolio.Valid()
      ensures Valid() && this.portfolio == portfolio
      ensures !isAddDialogOpen && selectedCoin == "" && amount == "" && price == ""
    {
      this.portfolio := portfolio;
      isAddDialogOpen := false;
      selectedCoin := "";
      amount := "";
      price := "";
    }

    /**
     * `handleAddToPortfolio`. An empty field, or a selected id that is not in the coin list,
     * reports an error and changes nothing. Otherwise the coin is added once with the parsed
     * amount and price, the dialog closes and the three fields are cleared.
     */
    method HandleAddToPortfolio(coins: Option<seq<Coin>>, parseFloat: string -> real, stamp: string, now: string)
      returns (result: AddResult)
      requires Valid()
      requires selectedCoin != "" && amount != "" && price != "" && FindCoinById(coins, selectedCoin).Some? ==>
        parseFloat(amount) > 0.0
      modifies this, portfolio
      ensures Valid()
      ensures old(selectedCoin == "" || amount == "" || price == "") ==>
        result == FillAllFields && unchanged(this) && unchanged(portfolio)
      ensures old(selectedCoin != "" && amount != "" && price != "") && FindCoinById(coins, old(selectedCoin)).None? ==>
        result == CoinNotFound && unchanged(this) && unchanged(portfolio)
      ensures old(selectedCoin != "" && amount != "" && price != "") && FindCoinById(coins, old(selectedCoin)).Some? ==>
        var coin := coins.value[FindCoinById(coins, old(selectedCoin)).value];
        && result == CoinAdded(coin.name)
        && portfolio.items
           == Added(old(portfolio.items), coin, parseFloat(old(amount)), parseFloat(old(price)), stamp, now)
        && !isAddDialogOpen && selectedCoin == "" && amount == "" && price == ""
    {
      if selectedCoin == "" || amount == "" || price == "" {
        return FillAllFields;
      }
      var found := FindCoinById(coins, selectedCoin);
      if found.None? {
        return CoinNotFound;
      }
      var coin := coins.value[found.value];
      portfolio.AddToPortfolio(coin, parseFloat(amount), parseFloat(price), stamp, now);
      result := CoinAdded(coin.name);
      isAddDialogOpen := false;
      selectedCoin := "";
      amount := "";
      price := "";
    }

    /** `handleRemoveFromPortfolio`: remove the holding and report its coin's name. */
    method HandleRemoveFromPortfolio(itemId: string, coinName: string) returns (removed: string)
      requires Valid()
      modifies portfolio
      ensures Valid()
      ensures removed == coinName
      ensures portfolio.items == Removed(old(portfolio.items), itemId)
    {
      portfolio.RemoveFromPortfolio(itemId);
      removed := coinName;
    }
  }

  /** One card of the holdings list. */
  datatype Row = Row(currentValue: real, investedValue: real, pnl: real, pnlPercentage: real)

  /** The values computed for each holding inside `portfolio.map`. */
  function ItemRow(item: Item, prices: map<string, real>): Row {
    var currentValue := CurrentValue(item, prices);
    var investedValue := Invested(item);
    var pnl := currentValue - investedValue;
    Row(currentValue, investedValue, pnl, PnLPercentage(pnl, investedValue))
  }

  /** `portfolio.map(...)`: one row per holding, in portfolio order. */
  function Rows(items: seq<Item>, prices: map<string, real>): (rows: seq<Row>)
    ensures |rows| == |items|
    ensures forall i :: 0 <= i < |items| ==> rows[i] == ItemRow(items[i], prices)
  {
    seq(|items|, i requires 0 <= i < |items| => ItemRow(items[i], prices))
  }

  /** The sum of the current values shown on the cards. */
  function CardsValue(rows: seq<Row>): real {
    Sum(rows, (row: Row) => row.currentValue)
  }

  /** The sum of the invested values shown on the cards. */
  function CardsInvested(rows: seq<Row>): real {
    Sum(rows, (row: Row) => row.investedValue)
  }

  /**
   * The cards agree with the summary: their current values add up to the total value of
   * `calculateStats` for the same prices, and their invested values to the total invested.
   */
  lemma {:induction false} CardsAgreeWithStats(items: seq<Item>, prices: map<string, real>)
    ensures CardsValue(Rows(items, prices)) == TotalValue(items, prices)
    ensures CardsInvested(Rows(items, prices)) == TotalInvested(items)
    decreases |items|
  {
    if items != [] {
      var init := items[..|items| - 1];
      var rows := Rows(items, prices);
      assert rows[..|rows| - 1] == Rows(init, prices);
      CardsAgreeWithStats(init, prices);
    }
  }

  /**
   * A card's percentage is the relative price change: for a positive amount bought at a
   * positive average price it is (price - averagePrice) / averagePrice * 100, with a missing
   * price counting as 0.
   */
  lemma RowPercentage(item: Item, prices: map<string, real>)
    requires item.amount > 0.0 && item.averagePrice > 0.0
    ensures ItemRow(item, prices).pnlPercentage
         == (PriceOf(prices, item.coinId) - item.averagePrice) / item.averagePrice * 100.0
  {
    var a, avg, p := item.amount, item.averagePrice, PriceOf(prices, item.coinId);
    var invested := a * avg;
    var pnl := a * p - a * avg;
    PositiveProduct(a, avg);
    assert pnl == a * (p - avg);
    ScaledRatio(a, p - avg, avg);
    assert ItemRow(item, prices).pnlPercentage == pnl / invested * 100.0;
  }

  /** A card shows a positive percentage exactly when its holding is worth more than it cost. */
  lemma RowGainSign(item: Item, prices: map<string, real>)
    ensures var row := ItemRow(item, prices);
      && (row.pnlPercentage > 0.0 <==> row.investedValue > 0.0 && row.currentValue > row.investedValue)
      && (row.investedValue <= 0.0 ==> row.pnlPercentage == 0.0)
  {
    var row := ItemRow(item, prices);
    PnLPercentageSign(row.currentValue, row.investedValue);
  }

  lemma PositiveProduct(a: real, b: real)
    requires a > 0.0 && b > 0.0
    ensures a * b > 0.0
  {
  }

  /** (a * x) / (a * y) == x / y for a, y > 0. */
  lemma ScaledRatio(a: real, x: real, y: real)
    requires a > 0.0 && y > 0.0
    ensures (a * x) / (a * y) == x / y
  {
    PositiveProduct(a, y);
    assert (x / y) * (a * y) == a * x;
  }
}
