/** The `filteredCoins` pipeline of the home page: search, then trend filter, then sort. */
module HomePage {
  import opened Optional
  import opened Seqs
  import opened StableSort
  import opened Crypto
  import opened CoinFilters

  /** The list the home page shows for a loaded coin list, stage by stage. */
  function HomeView(coins: seq<Coin>, search: string, trend: Trend, sortBy: SortBy): seq<Coin> {
    Sort(TrendStage(SearchStage(coins, search), trend), SortKey(sortBy))
  }

  /**
   * `filteredCoins`: nothing while the list is not loaded; otherwise the search and trend
   * stages reassign `filtered`, and the fresh array they produce is sorted in place.
   */
  method FilteredCoins(coins: Option<seq<Coin>>, search: string, filter: Trend, sortBy: SortBy)
    returns (r: seq<Coin>)
    ensures coins.None? ==> r == []
    ensures coins.Some? ==> r == HomeView(coins.value, search, filter, sortBy)
  {
    if coins.None? {
      return [];
    }
    var filtered := SearchStage(coins.value, search);
    if filter == Positive {
      filtered := Filter(filtered, (c: Coin) => c.priceChangePercentage24h > 0.0);
    } else if filter == Negative {
      filtered := Filter(filtered, (c: Coin) => c.priceChangePercentage24h < 0.0);
    }
    var a := ToArray(filtered);
    SortInPlace(a, SortKey(sortBy));
    r := a[..];
  }

  /**
   * The home page shows exactly the coins whose lower-cased name or symbol contains the
   * lower-cased query and that pass the trend filter, each as often as in the input.
   */
  lemma HomeSelects(coins: seq<Coin>, search: string, trend: Trend, sortBy: SortBy)
    ensures var r := HomeView(coins, search, trend, sortBy);
      && (forall c :: c in r <==> c in coins && MatchesSearch(c, search) && PassesTrend(c, trend))
      && (forall c :: c in coins ==>
            multiset(r)[c] == if MatchesSearch(c, search) && PassesTrend(c, trend) then multiset(coins)[c] else 0)
      && multiset(r) == multiset(Selected(coins, search, trend))
  {
    StagesSelect(coins, search, trend);
    SortedSelection(coins, search, trend, sortBy);
  }

  /** The list is non-increasing in market capitalisation, or in current price. */
  lemma HomeSorted(coins: seq<Coin>, search: string, trend: Trend, sortBy: SortBy)
    ensures var r := HomeView(coins, search, trend, sortBy);
      && (sortBy == MarketCap ==> forall i, j :: 0 <= i < j < |r| ==> r[i].marketCap >= r[j].marketCap)
      && (sortBy == CurrentPrice ==> forall i, j :: 0 <= i < j < |r| ==> r[i].currentPrice >= r[j].currentPrice)
  {
    StagesSelect(coins, search, trend);
    SortedSelection(coins, search, trend, sortBy);
    SortKeyOrder(HomeView(coins, search, trend, sortBy), sortBy);
  }

  /** Coins with equal sort keys are shown in the order they have in the input list. */
  lemma HomeStable(coins: seq<Coin>, search: string, trend: Trend, sortBy: SortBy, k: real)
    ensures WithKey(HomeView(coins, search, trend, sortBy), SortKey(sortBy), k)
         == WithKey(Selected(coins, search, trend), SortKey(sortBy), k)
  {
    StagesSelect(coins, search, trend);
    SortedSelection(coins, search, trend, sortBy);
  }

  /**
   * The trend filter is strict: a coin with exactly 0% change is shown only under "all", and
   * under "all" every coin matching the search is shown.
   */
  lemma HomeTrendBoundary(coins: seq<Coin>, search: string, trend: Trend, sortBy: SortBy, c: Coin)
    ensures c in HomeView(coins, search, trend, sortBy) && c.priceChangePercentage24h == 0.0 ==> trend == All
    ensures c in HomeView(coins, search, All, sortBy) <==> c in coins && MatchesSearch(c, search)
  {
    HomeSelects(coins, search, trend, sortBy);
    HomeSelects(coins, search, All, sortBy);
  }

  /** With an empty query and no trend filter, the home page shows every coin of the input. */
  lemma HomeEmptyQuery(coins: seq<Coin>, sortBy: SortBy)
    ensures multiset(HomeView(coins, "", All, sortBy)) == multiset(coins)
  {
    EmptySearchKeepsAll(coins);
    SortPermutes(coins, SortKey(sortBy));
  }
}
