/**
 * The three top-five selections of the market overview: `[...coins].sort(cmp).slice(0, 5)`
 * for the largest 24h gain, the largest 24h loss and the largest volume. The Vite component
 * (src/components/market-overview.tsx) and the Next.js component
 * (components/market-overview.tsx) compute the same three expressions. Each copy is sorted,
 * never `coins` itself; on values that is simply the fact that `coins` is not an output.
 */
module MarketOverview {
  import Seqs
  import opened StableSort
  import opened Crypto

  /** The `slice(0, 5)` bound. */
  const TopCount: nat := 5

  function Min(a: nat, b: nat): nat {
    if a <= b then a else b
  }

  /** The first `TopCount` elements of a stable sort by non-increasing key. */
  function Top<T>(s: seq<T>, key: T -> real): seq<T> {
    SortPermutes(s, key);
    Sort(s, key)[..Min(TopCount, |s|)]
  }

  /**
   * The selection has min(5, |s|) elements, is non-increasing in `key`, takes each element at
   * most as often as `s` holds it, and every element left out has a key no larger than the
   * last one selected.
   */
  lemma TopSpec<T>(s: seq<T>, key: T -> real)
    ensures var r := Top(s, key);
      && |r| == Min(TopCount, |s|)
      && SortedDesc(r, key)
      && multiset(r) <= multiset(s)
      && forall x :: x in multiset(s) - multiset(r) ==> r != [] && key(x) <= key(r[|r| - 1])
  {
    var sorted := Sort(s, key);
    SortPermutes(s, key);
    SortSorted(s, key);
    var n := Min(TopCount, |s|);
    var r := sorted[..n];
    assert sorted == r + sorted[n..];
    assert multiset(sorted) == multiset(r) + multiset(sorted[n..]);
    forall x | x in multiset(s) - multiset(r)
      ensures r != [] && key(x) <= key(r[|r| - 1])
    {
      assert x in multiset(sorted[n..]);
      var j :| n <= j < |sorted| && sorted[j] == x;
      assert sorted[n - 1] == r[|r| - 1];
    }
  }

  /** `topGainers`: sorted by `b.price_change_percentage_24h - a.price_change_percentage_24h`. */
  function TopGainers(coins: seq<Coin>): (r: seq<Coin>)
    ensures |r| == Min(TopCount, |coins|)
    ensures forall i, j :: 0 <= i < j < |r| ==> r[i].priceChangePercentage24h >= r[j].priceChangePercentage24h
    ensures multiset(r) <= multiset(coins)
    ensures forall c :: c in multiset(coins) - multiset(r) ==>
      r != [] && c.priceChangePercentage24h <= r[|r| - 1].priceChangePercentage24h
  {
    TopSpec(coins, (c: Coin) => c.priceChangePercentage24h);
    Top(coins, (c: Coin) => c.priceChangePercentage24h)
  }

  /**
   * `topLosers`: sorted by `a.price_change_percentage_24h - b.price_change_percentage_24h`,
   * which is the descending comparator on the negated change.
   */
  function TopLosers(coins: seq<Coin>): (r: seq<Coin>)
    ensures |r| == Min(TopCount, |coins|)
    ensures forall i, j :: 0 <= i < j < |r| ==> r[i].priceChangePercentage24h <= r[j].priceChangePercentage24h
    ensures multiset(r) <= multiset(coins)
    ensures forall c :: c in multiset(coins) - multiset(r) ==>
      r != [] && c.priceChangePercentage24h >= r[|r| - 1].priceChangePercentage24h
  {
    TopSpec(coins, (c: Coin) => -c.priceChangePercentage24h);
    Top(coins, (c: Coin) => -c.priceChangePercentage24h)
  }

  /** `topByVolume`: sorted by `b.total_volume - a.total_volume`. */
  function TopByVolume(coins: seq<Coin>): (r: seq<Coin>)
    ensures |r| == Min(TopCount, |coins|)
    ensures forall i, j :: 0 <= i < j < |r| ==> r[i].totalVolume >= r[j].totalVolume
    ensures multiset(r) <= multiset(coins)
    ensures forall c :: c in multiset(coins) - multiset(r) ==>
      r != [] && c.totalVolume <= r[|r| - 1].totalVolume
  {
    TopSpec(coins, (c: Coin) => c.totalVolume);
    Top(coins, (c: Coin) => c.totalVolume)
  }

  /**
   * Ties keep the input order: among the selected elements with key `k`, the order is that of
   * `s`, and they are the first elements of `s` with that key.
   */
  lemma TopStable<T>(s: seq<T>, key: T -> real, k: real)
    ensures WithKey(Top(s, key), key, k) <= WithKey(s, key, k)
  {
    var sorted := Sort(s, key);
    SortPermutes(s, key);
    var n := Min(TopCount, |s|);
    assert sorted == sorted[..n] + sorted[n..];
    Seqs.FilterConcat(sorted[..n], sorted[n..], x => key(x) == k);
    SortStable(s, key, k);
  }
}
