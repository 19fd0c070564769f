# crypto-dashboard, modelled in Dafny

This project models the logic at the core of the crypto-dashboard application, a React
dashboard of cryptocurrency prices. It has two copies: a Vite application under `src/` and a
Next.js application under `app/`, `components/` and `hooks/`. The model covers:

- **The portfolio store** (`usePortfolio`). A class `PortfolioStore.Portfolio` holds the list
  of holdings. Adding a coin merges a repeat purchase into the existing holding at the
  weighted-average price, or appends a new one. Removing filters by item id. Updating
  overwrites the amount and the average price. `calculateStats` is a loop over the holdings
  that sums value and cost, and it guards the percentage against division by zero.
- **The portfolio page.**
  - The price map is built by a loop from the coin list.
  - The add-coin form is a class `PortfolioPage.PortfolioPage` that holds the form state. Its
    handler method `HandleAddToPortfolio` reports an error for an empty field or an unknown
    coin, and otherwise adds once, closes the dialog and clears the form.
  - The remove handler.
  - The per-holding valuation cards, whose sums match the summary statistics.
- **The favourites store** (`useFavorites`). A class holds an ordered list of coin ids, with an
  idempotent add at the end and a filtering remove.
- **The coin-list pipelines.** The home page and both favourites pages take the same steps:
  1. a case-insensitive substring search on name or symbol;
  2. a strict trend filter that excludes 0% from both "positive" and "negative";
  3. a stable sort by non-increasing market capitalisation or current price.

  The sort is an in-place insertion sort on an array. It is proved equal to a specification
  function, and that function is proved to be:
  - sorted;
  - a permutation of its input;
  - stable: for every key value, the elements with that key keep their input order.
- **The market overview.** The top five by 24h gain, by 24h loss and by volume, each taken from
  a sorted copy of the coin list.
- **The price-chart transform.** Chart points are zipped by index from the three series of a
  price history, with 0 for a missing entry.

Numbers are exact `real`s. Both the weighted average and the percentage guards are modelled
with their divisions. Each module follows one file or concern of the repository:

- `Crypto` holds the coin and history records;
- `Seqs` holds `Array.prototype.find`, `Array.prototype.filter`, the accumulated sum of a
  `forEach` loop, and the lemmas about them;
- `Text` holds `toLowerCase` and `includes`;
- `StableSort` holds `Array.prototype.sort`;
- then come `CoinFilters`, `HomePage`, `FavoritesPage`, `MarketOverview`, `PortfolioStore`,
  `PortfolioPage`, `FavoritesStore` and `PriceHistoryChart`.

`addToPortfolio` does not check the amount: it computes the weighted average whatever the
amount is (src/hooks/use-portfolio.ts:27-35). The model adds no rejection path. Instead a
positive amount is a precondition of `Added`, `AddToPortfolio` and `UpdatePortfolioItem`. The
invariant `Valid()` says that every holding's amount is positive, so that merged totals never
divide by zero, and that no coin is held twice.

Some things are left free rather than modelled.
- The item id `${coin.id}-${Date.now()}` is `coin.id + "-" + stamp`, with `stamp` a
  parameter.
- `new Date().toISOString()` is the parameter `now`.
- `parseFloat`, the `toFixed` roundings and the `date-fns` formatter are function parameters.

Sorting or copying a list never changes the caller's list. In the model this is simply value
semantics: the input `seq` is not an output. The pipelines sort a fresh array, just as
`filter` and `[...coins]` return fresh arrays in the source.

## Model

| member | source | states |
|---|---|---|
| PortfolioStore.FindCoin | src/hooks/use-portfolio.ts:28 | `find` by coin id: absent exactly when no holding has the id; otherwise the first position that has it |
| PortfolioStore.Added | src/hooks/use-portfolio.ts:27-64 | adding keeps every amount positive |
| PortfolioStore.Portfolio.constructor | src/hooks/use-portfolio.ts:8 | the portfolio starts empty |
| PortfolioStore.Portfolio.AddToPortfolio | src/hooks/use-portfolio.ts:27-64 | the new list is the merge-or-append of the old one, every amount stays positive and no coin is held twice |
| PortfolioStore.Portfolio.RemoveFromPortfolio | src/hooks/use-portfolio.ts:66-68 | the new list is the old one filtered by `id !== itemId`, every amount stays positive and no coin is held twice |
| PortfolioStore.Portfolio.UpdatePortfolioItem | src/hooks/use-portfolio.ts:70-87 | the new list is the old one with the matching holdings overwritten, every amount stays positive and no coin is held twice |
| PortfolioStore.Portfolio.CalculateStats | src/hooks/use-portfolio.ts:89-111 | total value = Σ amount × (live price or 0); total invested = Σ amount × average price; P&L = their difference; percentage = 0 unless something is invested; all four are 0 for an empty portfolio |
| PortfolioStore.AddNewAppends | src/hooks/use-portfolio.ts:49-62 | a coin not yet held appends exactly one holding at the end, with id `coin.id-stamp`, the coin's id, symbol, name and image, and the given amount and price; earlier holdings are unchanged |
| PortfolioStore.AddExistingMerges | src/hooks/use-portfolio.ts:28-48 | a held coin keeps the length; the holding `find` returns gets amount old + new and the weighted-average price, and keeps its id, symbol, name and image; holdings of other coins are unchanged |
| PortfolioStore.AddKeepsCoinsUnique | src/hooks/use-portfolio.ts:28-62 | if each coin was held at most once it still is, and the coin is held afterwards |
| PortfolioStore.AddAverageBetween | src/hooks/use-portfolio.ts:32-35 | with positive amounts, the merged average lies between the old average and the new price, inclusive |
| PortfolioStore.WeightedAverageBetween | src/hooks/use-portfolio.ts:32-35 | the weighted average of two positive lots lies between their two prices |
| PortfolioStore.WeightedAverageAssociative | src/hooks/use-portfolio.ts:32-35 | averaging three lots does not depend on which two are averaged first |
| PortfolioStore.AddTwiceFresh | src/hooks/use-portfolio.ts:27-64 | two adds (q1, p1), (q2, p2) of a coin not held give one new holding of q1 + q2 units at (q1·p1 + q2·p2)/(q1 + q2) |
| PortfolioStore.AddAssociative | src/hooks/use-portfolio.ts:27-64 | adding (q1, p1) then (q2, p2) equals one add of q1 + q2 units at their weighted average, whether or not the coin was held |
| PortfolioStore.AddCostBasis | src/hooks/use-portfolio.ts:27-64 | with one holding per coin, an add raises the total invested by exactly amount × price and the total value by amount × the coin's live price |
| PortfolioStore.AddChangesOneHolding | src/hooks/use-portfolio.ts:37-47 | with one holding per coin, the merge rewrites only the found holding |
| PortfolioStore.RemoveDropsId | src/hooks/use-portfolio.ts:66-68 | no holding with the id remains, and every holding with another id does |
| PortfolioStore.RemoveIdempotent | src/hooks/use-portfolio.ts:66-68 | removing an absent id is a no-op, and removing twice is removing once |
| PortfolioStore.RemoveKeepsOrder | src/hooks/use-portfolio.ts:67 | the remaining holdings keep their relative order |
| PortfolioStore.RemoveKeepsInvariants | src/hooks/use-portfolio.ts:66-68 | removing keeps amounts positive and one holding per coin |
| PortfolioStore.UpdateSpec | src/hooks/use-portfolio.ts:70-87 | only holdings with the id get the new amount, price and timestamp, and keep their other fields; the length and every other holding are unchanged, so an absent id is a no-op |
| PortfolioStore.UpdateKeepsInvariants | src/hooks/use-portfolio.ts:70-87 | with a positive amount, updating keeps amounts positive and one holding per coin |
| PortfolioStore.TotalsAdditive | src/hooks/use-portfolio.ts:95-99 | total value and total invested are additive over concatenation |
| PortfolioStore.PnLPercentageSign | src/hooks/use-portfolio.ts:101-103 | the percentage is 0 unless something is invested, positive exactly when the value exceeds a positive cost, and negative exactly when it falls short of one |
| PortfolioPage.CurrentPrices | src/pages/portfolio.tsx:38-44 | an undefined coin list gives the empty map; otherwise the keys are exactly the coin ids, and each id maps to the price of the last coin with that id |
| PortfolioPage.FindCoinById | src/pages/portfolio.tsx:54 | `coins?.find` by id: nothing for an undefined list; otherwise absent exactly when no coin has the id, else the first coin with it |
| PortfolioPage.PortfolioPage.constructor | src/pages/portfolio.tsx:32-35 | the dialog is closed and the three form fields are empty |
| PortfolioPage.PortfolioPage.HandleAddToPortfolio | src/pages/portfolio.tsx:48-67 | an empty field gives the fill-all-fields error with no change; an unknown coin gives the not-found error with no change; otherwise the portfolio is the old one plus exactly one add of the found coin with the parsed amount and price, the dialog is closed and the fields are "" |
| PortfolioPage.PortfolioPage.HandleRemoveFromPortfolio | src/pages/portfolio.tsx:69-72 | the portfolio loses the holdings with that id, and the coin name is reported |
| PortfolioPage.Rows | src/pages/portfolio.tsx:280-285 | one card per holding, in portfolio order, each with that holding's values |
| PortfolioPage.CardsAgreeWithStats | src/pages/portfolio.tsx:281-283 | the cards' current values add up to `calculateStats`'s total value for the same prices, and their invested values add up to its total invested |
| PortfolioPage.RowPercentage | src/pages/portfolio.tsx:281-285 | for a positive amount and average price, a card's percentage is (price − average)/average × 100, with a missing price counted as 0 |
| PortfolioPage.RowGainSign | src/pages/portfolio.tsx:284-285 | a card's percentage is positive exactly when the holding is worth more than a positive cost, and 0 when nothing is invested |
| FavoritesStore.Favorites.constructor | hooks/use-favorites.ts:6 | the list starts empty |
| FavoritesStore.Favorites.AddFavorite | hooks/use-favorites.ts:22-29 | the new list is the old one if it holds the id, and the old one with the id appended otherwise |
| FavoritesStore.Favorites.RemoveFavorite | hooks/use-favorites.ts:31-37 | the new list is the old one without the id |
| FavoritesStore.AddFavoriteSpec | hooks/use-favorites.ts:23-28 | an id already present leaves the list unchanged; a new id is appended at the end after the earlier ids in order; afterwards the id is present, and adding it again is a no-op |
| FavoritesStore.RemoveFavoriteSpec | hooks/use-favorites.ts:33 | the id is absent afterwards and every other id stays; an absent id is a no-op; removing twice is removing once |
| FavoritesStore.RemoveKeepsOrder | hooks/use-favorites.ts:33 | the remaining ids keep their relative order |
| FavoritesStore.FavoritesStayDistinct | hooks/use-favorites.ts:24-25 | if the list has no duplicates, neither operation introduces one |
| Seqs.FindFirst | src/hooks/use-portfolio.ts:28 | `Array.prototype.find`: absent exactly when no element satisfies the predicate; otherwise the first position that does |
| Seqs.Filter | src/pages/home.tsx:37 | `Array.prototype.filter`: no longer than the input, and every element kept passes |
| Seqs.FilterMultiset | src/pages/home.tsx:37 | a filter keeps every occurrence of each passing element and none of a failing one |
| Seqs.FilterMember | src/pages/home.tsx:37 | every element of a filter result comes from the input and passes |
| Seqs.FilterRetains | src/pages/home.tsx:37 | every passing element of the input is in the result |
| Seqs.FilterKeepsOrder | src/pages/home.tsx:37 | two passing elements stay in the order they had |
| Seqs.FilterConcat | src/pages/home.tsx:37 | filtering distributes over concatenation |
| Seqs.FilterAll | src/pages/home.tsx:37 | a filter that everything passes returns its input |
| Seqs.FilterCongruent | src/pages/home.tsx:37 | filters whose predicates agree on the input give the same result |
| Seqs.FilterIdempotent | src/hooks/use-portfolio.ts:67 | filtering twice by the same predicate is filtering once |
| Seqs.FilterFilter | src/pages/home.tsx:37-48 | filtering by p and then by q is one filter by p ∧ q |
| Seqs.FilterKeepsDistinctBy | src/hooks/use-portfolio.ts:67 | filtering a list whose keys are pairwise distinct keeps them distinct (one holding per coin, one entry per favourite id) |
| Seqs.SumSnoc | src/hooks/use-portfolio.ts:95-99 | one more `forEach` step adds that element's term to the sum |
| Seqs.SumConcat | src/hooks/use-portfolio.ts:95-99 | the accumulated sum over two lists side by side is the sum of their sums |
| Seqs.SumPointUpdate | src/hooks/use-portfolio.ts:95-99 | changing one element changes a sum by exactly that element's difference |
| Text.ToLower | src/pages/home.tsx:38-39 | `toLowerCase` keeps the length, turns each upper-case letter into its lower-case form (32 code points up), keeps every other character, and leaves no upper-case letter |
| Text.ToLowerIgnoresCase | src/pages/home.tsx:38-39 | two strings lower-case to the same string exactly when they have the same length and, at each position, the same character or one ASCII letter in upper case and the other in lower case |
| Text.Contains | src/pages/home.tsx:38-39 | `includes` is true exactly when the query occurs at some position |
| StableSort.InsertPermutes | src/pages/home.tsx:51-56 | inserting adds exactly the one element |
| StableSort.SortPermutes | src/pages/home.tsx:51-56 | the sort is a permutation: same length and same multiset |
| StableSort.InsertSorted | src/pages/home.tsx:51-56 | inserting into a non-increasing list keeps it non-increasing |
| StableSort.SortSorted | src/pages/home.tsx:51-56 | the result of `(a, b) => key(b) - key(a)` is non-increasing in the key |
| StableSort.InsertStable | src/pages/home.tsx:51-56 | inserting behind the equal keys keeps their order |
| StableSort.SortStable | src/pages/home.tsx:51-56 | for every key value, the elements with that key appear in input order |
| StableSort.InsertAt | src/pages/home.tsx:51-56 | the insertion puts the element just after the last larger-or-equal key |
| StableSort.SortStep | src/pages/home.tsx:51-56 | sorting one more element is one insertion into the sorted prefix |
| StableSort.InsertInPlace | src/pages/home.tsx:51-56 | shifting larger keys inside the array inserts the element into the sorted prefix and leaves the rest alone |
| StableSort.SortInPlace | src/pages/home.tsx:51-56 | sorting the array in place leaves exactly the specification sort of its old contents |
| CoinFilters.TrendStageIsFilter | src/pages/home.tsx:44-48 | the trend stage is a filter by the strict trend predicate, and "all" keeps every coin |
| CoinFilters.StagesSelect | src/pages/home.tsx:37-48 | search and then trend is one filter by both predicates |
| CoinFilters.SearchIgnoresQueryCase | src/pages/home.tsx:36-40 | queries that differ only in letter case select the same coins |
| CoinFilters.EmptySearchKeepsAll | src/pages/home.tsx:37-41 | the empty query keeps every coin |
| CoinFilters.SortedSelection | src/pages/home.tsx:37-56 | the sorted selection is exactly the coins passing both filters, with their multiplicities; it is non-increasing in the key, and stable |
| CoinFilters.SortKeyOrder | src/pages/home.tsx:51-56 | sorting by "market_cap" orders by market capitalisation, and otherwise by current price |
| HomePage.FilteredCoins | src/pages/home.tsx:34-59 | an undefined coin list gives []; otherwise the result is the search, trend and sort stages applied in turn |
| HomePage.HomeSelects | src/pages/home.tsx:37-48 | a coin is shown exactly when it is in the input, matches the search and passes the trend filter, and as often as in the input |
| HomePage.HomeSorted | src/pages/home.tsx:51-56 | the list is non-increasing in market capitalisation for "market_cap", and in current price otherwise |
| HomePage.HomeStable | src/pages/home.tsx:51-56 | coins with equal keys keep their input order |
| HomePage.HomeTrendBoundary | src/pages/home.tsx:44-48 | a 0% coin is shown only under "all"; under "all" every coin that matches the search is shown |
| HomePage.HomeEmptyQuery | src/pages/home.tsx:37-41 | with an empty query and "all", every input coin is shown, as a permutation |
| FavoritesPage.FavoriteCoins | src/pages/favorites.tsx:34-64 | an undefined coin list or an empty favourites list gives []; otherwise it gives favourites, then the optional search, then trend, then sort |
| FavoritesPage.NextFavoriteCoins | app/favorites/page.tsx:33-63 | the same, for the Next.js page |
| FavoritesPage.FavoritesIsHomeOnFavorites | src/pages/favorites.tsx:35-46 | skipping the search for an empty query, and returning early for an empty favourites list, change nothing: the page is always the home pipeline over the favourited coins |
| FavoritesPage.FavoritesSelects | src/pages/favorites.tsx:37-53 | every coin shown is favourited; a coin is shown exactly when it is favourited, matches the search and passes the trend filter, and as often as in the coin list |
| FavoritesPage.FavoritesSortedStable | app/favorites/page.tsx:55-60 | the page is non-increasing by the chosen key, and coins with equal keys keep their order |
| FavoritesPage.FavoritesOrderIrrelevant | src/pages/favorites.tsx:35-37 | only which ids are favourited matters, not their order or repetitions |
| MarketOverview.TopSpec | components/market-overview.tsx:19-26 | a top-five list has min(5, n) elements, is non-increasing in its key, and is a sub-multiset of the coins; every coin left out has a key no larger than the last selected |
| MarketOverview.TopGainers | src/components/market-overview.tsx:47-51 | min(5, n) coins, non-increasing in 24h change, a sub-multiset; no coin left out has a larger change than the last entry |
| MarketOverview.TopLosers | src/components/market-overview.tsx:53-57 | min(5, n) coins, non-decreasing in 24h change, a sub-multiset; no coin left out has a smaller change than the last entry |
| MarketOverview.TopByVolume | src/components/market-overview.tsx:60-62 | min(5, n) coins, non-increasing in volume, a sub-multiset; no coin left out has a larger volume than the last entry |
| MarketOverview.TopStable | src/components/market-overview.tsx:47-62 | among the selected coins with equal keys, the order is that of the input, and they are its first coins with that key |
| PriceHistoryChart.ToChartData | src/hooks/use-price-history.ts:17-33 | one point per entry of `prices`, and point i has the timestamp of `prices[i]` and its formatted date |
| PriceHistoryChart.ChartPointValues | src/hooks/use-price-history.ts:21-30 | point i's price is the rounded `prices[i]` value; its volume and market capitalisation come from index i of their series when it exists, and from 0 otherwise |
| PriceHistoryChart.ExtraEntriesIgnored | src/hooks/use-price-history.ts:20-23 | entries of the volume and market-cap series beyond the length of `prices` do not affect the chart |
| PriceHistoryChart.ChartPrefix | src/hooks/use-price-history.ts:20 | truncating `prices` to n entries truncates the chart to its first n points |

## Left out

- The localStorage loading and saving effects, and JSON parse-failure handling
  (src/hooks/use-portfolio.ts:11-25, hooks/use-favorites.ts:9-20, 26, 34). These are persistence
  I/O; only the in-memory transitions are modelled. The `isLoaded` flag of `useFavorites` goes
  with them.
- The network clients, their proxy retry and mock-data fallback, and the React Query wrappers
  (`useCrypto`, `useCoinDetails`, `useCoinPriceHistory`). These are I/O and library code; the
  coin list and the price history are inputs (`Option` for React Query's `undefined`).
- The 300 ms search debounce. It is timer-driven, so the query the pipelines see is a parameter.
- Display formatting: `Intl.NumberFormat`, `toFixed`, `toLocaleString`, `formatPercentage` and
  the date format. In the chart, the two roundings and the date formatter are uninterpreted
  function parameters.
- Rendering, toasts (as opposed to which toast the handler shows), navigation and theming.
- IEEE-754 behaviour. The model uses exact reals, so it has no NaN from `parseFloat`, no
  rounding error in the weighted average, and no NaN inside a comparator. `parseFloat` is a
  parameter.
- PortfolioStore.Added: requires a positive amount, which the code does not check
  (src/hooks/use-portfolio.ts:27-35). A zero or negative amount can make the merged total
  zero, and in JavaScript that yields Infinity or NaN, which exact reals cannot represent.
- PortfolioStore.Portfolio.AddToPortfolio: requires a positive amount for the same reason.
- PortfolioPage.PortfolioPage.HandleAddToPortfolio: requires the parsed amount to be positive
  when all three fields are filled and the selected coin is in the list, for the same reason.
  The empty-field and unknown-coin paths have no such requirement.
- PortfolioStore.Portfolio.UpdatePortfolioItem: requires a positive amount for the same reason,
  so that the positivity invariant is kept.
- The stale-closure behaviour of `addToPortfolio`: the existence check reads `portfolio`, while
  the update maps React's `prev`. Operations are modelled as sequential, with `prev` equal to
  the current list.
- Text.ToLower: models ASCII case folding only. JavaScript's `toLowerCase` also folds other
  Unicode letters, and strings here are sequences of characters without normalisation.
- `Array.prototype.sort` is required to be stable, and it is modelled as a stable insertion sort
  by a real key. The comparators `b.x - a.x` (and `a.x - b.x` for losers, as a descending sort
  on the negated key) are exact differences, so their sign is that of the key comparison.
- Coin fields other than id, symbol, name, image, current price, market capitalisation,
  total volume and 24h change, and the coin-details page, are not part of this model.
