/**
 * The `favoriteCoins` pipeline of the favourites page: keep the favourited coins, search only
 * when the query is non-empty, filter by trend, then sort. The Vite page
 * (src/pages/favorites.tsx) and the Next.js page (app/favorites/page.tsx) run the same code;
 * FavoriteCoins models the first and NextFavoriteCoins the second.
 */
module FavoritesPage {
  import opened Optional
  import opened Seqs
  import opened StableSort
  import opened Crypto
  import opened CoinFilters
  import opened HomePage

  /** `allCoins.filter((coin) => favorites.includes(coin.id))`. */
  function FavoriteStage(coins: seq<Coin>, favorites: seq<string>): seq<Coin> {
    Filter(coins, (c: Coin) => c.id in favorites)
  }

  /** The list a favourites page shows for a loaded coin list, stage by stage. */
  function FavoritesView(allCoins: seq<Coin>, favorites: seq<string>, search: string, trend: Trend, sortBy: SortBy)
    : seq<Coin>
  {
    if favorites == [] then []
    else
      var favs := FavoriteStage(allCoins, favorites);
      var searched := if search != "" then SearchStage(favs, search) else favs;
      Sort(TrendStage(searched, trend), SortKey(sortBy))
  }

  /** `favoriteCoins` of src/pages/favorites.tsx. */
  method FavoriteCoins(allCoins: Option<seq<Coin>>, favorites: seq<string>, search: string, filter: Trend, sortBy: SortBy)
    returns (r: seq<Coin>)
    ensures allCoins.None? || favorites == [] ==> r == []
    ensures allCoins.Some? ==> r == FavoritesView(allCoins.value, favorites, search, filter, sortBy)
  {
    if allCoins.None? || |favorites| == 0 {
      return [];
    }
    var filtered := FavoriteStage(allCoins.value, favorites);
    if search != "" {
      filtered := SearchStage(filtered, search);
    }
    if filter == Positive {
      filtered := Filter(filtered, (c: Coin) => c.priceChangePercentage24h > 0.0);
    } else if filter == Negative {
      filtered := Filter(filtered, (c: Coin) => c.priceChangePercentage24h < 0.0);
    }
    var a := ToArray(filtered);
    SortInPlace(a, SortKey(sortBy));
    r := a[..];
  }

  /** `favoriteCoins` of app/favorites/page.tsx, the same code in the Next.js application. */
  method NextFavoriteCoins(allCoins: Option<seq<Coin>>, favorites: seq<string>, search: string, filter: Trend, sortBy: SortBy)
    returns (r: seq<Coin>)
    ensures allCoins.None? || favorites == [] ==> r == []
    ensures allCoins.Some? ==> r == FavoritesView(allCoins.value, favorites, search, filter, sortBy)
  {
    if allCoins.None? || |favorites| == 0 {
      return [];
    }
    var filtered := FavoriteStage(allCoins.value, favorites);
    if search != "" {
      filtered := SearchStage(filtered, search);
    }
    if filter == Positive {
      filtered := Filter(filtered, (c: Coin) => c.priceChangePercentage24h > 0.0);
    } else if filter == Negative {
      filtered := Filter(filtered, (c: Coin) => c.priceChangePercentage24h < 0.0);
    }
    var a := ToArray(filtered);
    SortInPlace(a, SortKey(sortBy));
    r := a[..];
  }

  /**
   * Skipping the search for an empty query changes nothing: a favourites page shows what the
   * home pipeline shows for the favourited coins.
   */
  lemma FavoritesIsHomeOnFavorites(allCoins: seq<Coin>, favorites: seq<string>, search: string, trend: Trend, sortBy: SortBy)
    ensures FavoritesView(allCoins, favorites, search, trend, sortBy)
         == HomeView(FavoriteStage(allCoins, favorites), search, trend, sortBy)
  {
    if favorites == [] {
      FilterMultiset(allCoins, (c: Coin) => c.id in favorites);
      assert FavoriteStage(allCoins, favorites) == [];
    } else if search == "" {
      EmptySearchKeepsAll(FavoriteStage(allCoins, favorites));
    }
  }

  /**
   * A favourites page shows exactly the favourited coins that match the search and pass the
   * trend filter, each as often as in the coin list.
   */
  lemma FavoritesSelects(allCoins: seq<Coin>, favorites: seq<string>, search: string, trend: Trend, sortBy: SortBy)
    ensures var r := FavoritesView(allCoins, favorites, search, trend, sortBy);
      && (forall c :: c in r ==> c.id in favorites)
      && (forall c :: c in r <==>
            c in allCoins && c.id in favorites && MatchesSearch(c, search) && PassesTrend(c, trend))
      && (forall c :: c in allCoins ==>
            multiset(r)[c] ==
              if c.id in favorites && MatchesSearch(c, search) && PassesTrend(c, trend)
              then multiset(allCoins)[c] else 0)
  {
    if favorites != [] {
      var favs := FavoriteStage(allCoins, favorites);
      FavoritesIsHomeOnFavorites(allCoins, favorites, search, trend, sortBy);
      HomeSelects(favs, search, trend, sortBy);
      FilterMultiset(allCoins, (c: Coin) => c.id in favorites);
    }
  }

  /**
   * A favourites page is sorted non-increasingly by the chosen key, and coins with equal keys
   * keep the order of the coin list.
   */
  lemma FavoritesSortedStable(allCoins: seq<Coin>, favorites: seq<string>, search: string, trend: Trend, sortBy: SortBy, k: real)
    ensures var r := FavoritesView(allCoins, favorites, search, trend, sortBy);
      && (sortBy == MarketCap ==> forall i, j :: 0 <= i < j < |r| ==> r[i].marketCap >= r[j].marketCap)
      && (sortBy == CurrentPrice ==> forall i, j :: 0 <= i < j < |r| ==> r[i].currentPrice >= r[j].currentPrice)
      && WithKey(r, SortKey(sortBy), k)
         == if favorites == [] then []
            else WithKey(Selected(FavoriteStage(allCoins, favorites), search, trend), SortKey(sortBy), k)
  {
    if favorites != [] {
      var favs := FavoriteStage(allCoins, favorites);
      FavoritesIsHomeOnFavorites(allCoins, favorites, search, trend, sortBy);
      HomeSorted(favs, search, trend, sortBy);
      HomeStable(favs, search, trend, sortBy, k);
    }
  }

  /** Only which ids are favourited matters: their order and repetitions in the list do not. */
  lemma FavoritesOrderIrrelevant(allCoins: seq<Coin>, f1: seq<string>, f2: seq<string>, search: string, trend: Trend, sortBy: SortBy)
    requires forall id :: id in f1 <==> id in f2
    ensures FavoritesView(allCoins, f1, search, trend, sortBy) == FavoritesView(allCoins, f2, search, trend, sortBy)
  {
    if f1 != [] {
      assert f1[0] in f2;
      FilterCongruent(allCoins, (c: Coin) => c.id in f1, (c: Coin) => c.id in f2);
    }
  }
}
