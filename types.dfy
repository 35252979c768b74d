/**
 * The records that flow between the exchange, the page and the calculator
 * (lib/types.ts). Numeric strings of the exchange's records are held as the
 * numbers `parseFloat` yields for them; display strings are opaque labels.
 */
module Types {

  /** Milliseconds in one hour and in one day. */
  const HOUR_MS: int := 60 * 60 * 1000
  const DAY_MS: int := 24 * HOUR_MS

  /** A funding-rate record as the exchange returns it (`FundingRate`). */
  datatype FundingRate = FundingRate(symbol: string, fundingTime: int, fundingRate: real, markPrice: real)

  /** A price candle as the exchange returns it (`Kline`). */
  datatype Kline = Kline(openTime: int, open: real, high: real, low: real, close: real, volume: real, closeTime: int)

  /** One funding event on the chart's time axis (`ChartDataPoint`). */
  datatype ChartDataPoint = ChartDataPoint(time: int, formattedTime: string, fundingRate: real, fundingRatePercent: string)

  /** One price point on the chart's time axis (`PriceDataPoint`). */
  datatype PriceDataPoint = PriceDataPoint(time: int, formattedTime: string, price: real, open: real, high: real, low: real)

  /** One simulated funding payment and the running total after it (`IncomeDataPoint`). */
  datatype IncomeDataPoint = IncomeDataPoint(time: int, formattedTime: string, income: real, cumulativeIncome: real)
}
