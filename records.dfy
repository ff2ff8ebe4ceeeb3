/** The two record types of the strategy processor and its fixed parameters.
    Doubles are modelled as exact reals; dates stay ISO `YYYY-MM-DD` strings. */
module Records {

  /** Bollinger window; used only by the indicator engine, which is not modelled. */
  const BollingerPeriod: nat := 10
  /** Bollinger standard-deviation multiplier; used only by the indicator engine. */
  const BollingerStdDev: real := 2.5
  /** RSI window; used only by the indicator engine. */
  const RsiPeriod: nat := 5
  /** Trading days per year, used to annualise the mean daily return. */
  const TradingDaysPerYear: nat := 252

  /** One input row: one security on one trading date. */
  datatype StockData = StockData(
    date: string,
    ticker: string,
    open: real,
    high: real,
    low: real,
    close: real,
    volume: real,
    nextDayReturn: real)

  /** The indicator bundle of one (security, date) pair. */
  datatype IndicatorValues = IndicatorValues(rsi: real, bbUpper: real, bbLower: real, bbMid: real)

  datatype Option<T> = None | Some(value: T)

  /** The indicator cache: ticker -> (date -> indicator bundle). */
  type IndicatorCache = map<string, map<string, IndicatorValues>>

  /** `cache.getOrDefault(ticker, emptyMap()).get(date)`: absent when either key is missing. */
  function Lookup(cache: IndicatorCache, ticker: string, date: string): (r: Option<IndicatorValues>)
    ensures r.Some? <==> ticker in cache && date in cache[ticker]
    ensures r.Some? ==> r.value == cache[ticker][date]
  {
    if ticker in cache && date in cache[ticker] then Some(cache[ticker][date]) else None
  }
}
