/**
 * The stages shared by the coin-list pipelines of the home page and the two favourites pages:
 * a case-insensitive search on name or symbol, a strict trend filter on the 24h change, and a
 * descending sort by market capitalisation or current price.
 */
module CoinFilters {
  import opened Seqs
  import opened Text
  import opened StableSort
  import opened Crypto

  /** The trend filter: "all" | "positive" | "negative". */
  datatype Trend = All | Positive | Negative

  /** The sort key: "market_cap" | "current_price". */
  datatype SortBy = MarketCap | CurrentPrice

  /** The search predicate: the lower-cased name or symbol contains the lower-cased query. */
  predicate MatchesSearch(c: Coin, query: string) {
    Contains(ToLower(c.name), ToLower(query)) || Contains(ToLower(c.symbol), ToLower(query))
  }

  /** The trend predicate; a coin with exactly 0% change passes only `All`. */
  predicate PassesTrend(c: Coin, trend: Trend) {
    match trend
    case All => true
    case Positive => c.priceChangePercentage24h > 0.0
    case Negative => c.priceChangePercentage24h < 0.0
  }

  /** `coins.filter(...)` with the search predicate. */
  function SearchStage(coins: seq<Coin>, query: string): seq<Coin> {
    Filter(coins, c => MatchesSearch(c, query))
  }

  /** The `if (filter === "positive") ... else if (filter === "negative") ...` stage. */
  function TrendStage(coins: seq<Coin>, trend: Trend): seq<Coin> {
    match trend
    case Positive => Filter(coins, (c: Coin) => c.priceChangePercentage24h > 0.0)
    case Negative => Filter(coins, (c: Coin) => c.priceChangePercentage24h < 0.0)
    case All => coins
  }

  /**
   * The key of the comparator `(a, b) => b.market_cap - a.market_cap`, or of
   * `(a, b) => b.current_price - a.current_price` when sorting by price.
   */
  function SortKey(sortBy: SortBy): Coin -> real {
    if sortBy == MarketCap then (c: Coin) => c.marketCap else (c: Coin) => c.currentPrice
  }

  /** The coins that pass both the search and the trend filter, in input order. */
  function Selected(coins: seq<Coin>, query: string, trend: Trend): seq<Coin> {
    Filter(coins, c => MatchesSearch(c, query) && PassesTrend(c, trend))
  }

  /** The search ignores the case of the query: two queries that differ only in case select the same coins. */
  lemma SearchIgnoresQueryCase(coins: seq<Coin>, q1: string, q2: string)
    requires SameIgnoringCase(q1, q2)
    ensures SearchStage(coins, q1) == SearchStage(coins, q2)
  {
    ToLowerIgnoresCase(q1, q2);
    FilterCongruent(coins, c => MatchesSearch(c, q1), c => MatchesSearch(c, q2));
  }

  /** The trend stage is exactly a filter by PassesTrend. */
  lemma TrendStageIsFilter(coins: seq<Coin>, trend: Trend)
    ensures TrendStage(coins, trend) == Filter(coins, c => PassesTrend(c, trend))
  {
    match trend
    case All => FilterAll(coins, c => PassesTrend(c, trend));
    case Positive =>
      FilterCongruent(coins, (c: Coin) => c.priceChangePercentage24h > 0.0, c => PassesTrend(c, trend));
    case Negative =>
      FilterCongruent(coins, (c: Coin) => c.priceChangePercentage24h < 0.0, c => PassesTrend(c, trend));
  }

  /** Search then trend is one filter by both predicates. */
  lemma StagesSelect(coins: seq<Coin>, query: string, trend: Trend)
    ensures TrendStage(SearchStage(coins, query), trend) == Selected(coins, query, trend)
  {
    TrendStageIsFilter(SearchStage(coins, query), trend);
    FilterFilter(coins, c => MatchesSearch(c, query), c => PassesTrend(c, trend),
      c => MatchesSearch(c, query) && PassesTrend(c, trend));
  }

  /** The empty query matches every coin, so the search stage keeps the whole list. */
  lemma EmptySearchKeepsAll(coins: seq<Coin>)
    ensures SearchStage(coins, "") == coins
  {
    forall i | 0 <= i < |coins|
      ensures MatchesSearch(coins[i], "")
    {
      ContainsEmpty(ToLower(coins[i].name));
    }
    FilterAll(coins, c => MatchesSearch(c, ""));
  }

  /**
   * What a pipeline that sorts the selected coins returns: exactly the selected coins (as a
   * multiset), each passing both filters, ordered by non-increasing key, and with the coins of
   * equal key in their input order.
   */
  lemma {:induction false} SortedSelection(coins: seq<Coin>, query: string, trend: Trend, sortBy: SortBy)
    ensures var r := Sort(Selected(coins, query, trend), SortKey(sortBy));
      && multiset(r) == multiset(Selected(coins, query, trend))
      && (forall c :: c in r <==> c in coins && MatchesSearch(c, query) && PassesTrend(c, trend))
      && (forall c :: c in coins ==>
            multiset(r)[c] == if MatchesSearch(c, query) && PassesTrend(c, trend) then multiset(coins)[c] else 0)
      && SortedDesc(r, SortKey(sortBy))
      && (forall k :: WithKey(r, SortKey(sortBy), k) == WithKey(Selected(coins, query, trend), SortKey(sortBy), k))
  {
    var sel := Selected(coins, query, trend);
    var key := SortKey(sortBy);
    SortPermutes(sel, key);
    SortSorted(sel, key);
    FilterMultiset(coins, c => MatchesSearch(c, query) && PassesTrend(c, trend));
    forall k
      ensures WithKey(Sort(sel, key), key, k) == WithKey(sel, key, k)
    {
      SortStable(sel, key, k);
    }
    var r := Sort(sel, key);
    forall c
      ensures c in r <==> c in sel
    {
      assert c in r <==> c in multiset(r);
      assert c in sel <==> c in multiset(sel);
    }
  }

  /** Sorting by "market_cap" orders by market capitalisation, otherwise by current price. */
  lemma SortKeyOrder(r: seq<Coin>, sortBy: SortBy)
    requires SortedDesc(r, SortKey(sortBy))
    ensures sortBy == MarketCap ==> forall i, j :: 0 <= i < j < |r| ==> r[i].marketCap >= r[j].marketCap
    ensures sortBy == CurrentPrice ==> forall i, j :: 0 <= i < j < |r| ==> r[i].currentPrice >= r[j].currentPrice
  {
  }

  /** Copies a list into a fresh array, the array that `filter` returns in the source. */
  method ToArray(s: seq<Coin>) returns (a: array<Coin>)
    ensures fresh(a) && a[..] == s
  {
    a := new Coin[|s|](i requires 0 <= i < |s| => s[i]);
  }
}
