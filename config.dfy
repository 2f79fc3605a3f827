/** The strategy parameters of `TradingConfig` (config/config.py). */
module Config {

  datatype TradingConfig = TradingConfig(
    symbol: string,
    startDate: string,
    endDate: string,
    initialCapital: real,
    emaShort: int,
    emaLong: int,
    volumeThreshold: real,
    stopLoss: real,
    takeProfit: real,
    pivotThreshold: real)

  /** The declared default of `pivot_threshold`. */
  const DefaultPivotThreshold: real := 0.001
}
