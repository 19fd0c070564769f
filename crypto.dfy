/**
 * The records the dashboard receives from the market-data service. Only the fields that the
 * modelled code reads are kept; prices, capitalisations, volumes and percentages are exact reals.
 */
module Crypto {

  /** One entry of the coin listing. */
  datatype Coin = Coin(
    id: string,
    symbol: string,
    name: string,
    image: string,
    currentPrice: real,
    marketCap: real,
    totalVolume: real,
    priceChangePercentage24h: real)

  /** A pair `[timestamp, value]` of a historical series. */
  type SeriesPoint = (real, real)

  /** The historical series of one coin: prices, market capitalisations and volumes. */
  datatype PriceHistory = PriceHistory(
    prices: seq<SeriesPoint>,
    marketCaps: seq<SeriesPoint>,
    totalVolumes: seq<SeriesPoint>)

  /** One point of the price chart. */
  datatype ChartPoint = ChartPoint(
    timestamp: real,
    date: string,
    price: real,
    volume: real,
    marketCap: real)
}
