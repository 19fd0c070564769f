/**
 * `transformPriceHistoryToChartData`: one chart point per entry of `prices`, zipped by index
 * with `total_volumes` and `market_caps`, where a missing entry counts as 0. The rounding of
 * `toFixed` and the `date-fns` formatting are parameters.
 */
module PriceHistoryChart {
  import opened Crypto

  /** `series[index] || [timestamp, 0]`, second component: the value at `i`, or 0 past the end. */
  function ValueAt(series: seq<SeriesPoint>, i: nat): real {
    if i < |series| then series[i].1 else 0.0
  }

  function ToChartData(history: PriceHistory, round2: real -> real, round0: real -> real, formatDate: real -> string)
    : (points: seq<ChartPoint>)
    ensures |points| == |history.prices|
    ensures forall i :: 0 <= i < |points| ==>
      points[i].timestamp == history.prices[i].0 && points[i].date == formatDate(history.prices[i].0)
  {
    seq(|history.prices|, i requires 0 <= i < |history.prices| =>
      var timestamp := history.prices[i].0;
      ChartPoint(
        timestamp,
        formatDate(timestamp),
        round2(history.prices[i].1),
        round0(ValueAt(history.totalVolumes, i)),
        round0(ValueAt(history.marketCaps, i))))
  }

  /**
   * Point i takes its price from `prices[i]`, and its volume and market capitalisation from
   * the entry at the same index when there is one and from 0 otherwise.
   */
  lemma ChartPointValues(history: PriceHistory, round2: real -> real, round0: real -> real, formatDate: real -> string, i: nat)
    requires i < |history.prices|
    ensures var p := ToChartData(history, round2, round0, formatDate)[i];
      && p.price == round2(history.prices[i].1)
      && (i < |history.totalVolumes| ==> p.volume == round0(history.totalVolumes[i].1))
      && (i >= |history.totalVolumes| ==> p.volume == round0(0.0))
      && (i < |history.marketCaps| ==> p.marketCap == round0(history.marketCaps[i].1))
      && (i >= |history.marketCaps| ==> p.marketCap == round0(0.0))
  {
  }

  /**
   * Only the first |prices| entries of the other two series matter: histories with the same
   * prices whose volumes and market capitalisations agree up to that length (a missing entry
   * agreeing with a 0) give the same chart.
   */
  lemma ExtraEntriesIgnored(h1: PriceHistory, h2: PriceHistory, round2: real -> real, round0: real -> real, formatDate: real -> string)
    requires h1.prices == h2.prices
    requires forall i :: 0 <= i < |h1.prices| ==>
      ValueAt(h1.totalVolumes, i) == ValueAt(h2.totalVolumes, i) && ValueAt(h1.marketCaps, i) == ValueAt(h2.marketCaps, i)
    ensures ToChartData(h1, round2, round0, formatDate) == ToChartData(h2, round2, round0, formatDate)
  {
    var c1, c2 := ToChartData(h1, round2, round0, formatDate), ToChartData(h2, round2, round0, formatDate);
    forall i | 0 <= i < |c1|
      ensures c1[i] == c2[i]
    {
    }
  }

  /**
   * Keeping only the first n entries of `prices`, with the other two series as they are, keeps
   * only the first n points of the chart.
   */
  lemma ChartPrefix(history: PriceHistory, n: nat, round2: real -> real, round0: real -> real, formatDate: real -> string)
    requires n <= |history.prices|
    ensures var short := PriceHistory(history.prices[..n], history.marketCaps, history.totalVolumes);
      ToChartData(short, round2, round0, formatDate) == ToChartData(history, round2, round0, formatDate)[..n]
  {
  }
}
