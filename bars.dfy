/**
 * The inputs of the backtest engine: one record per minute bar, already carrying the
 * nine-period EMA and (after signal detection) the directional signal, and the run's
 * configuration.
 */
module BarData {

  /** One OHLC bar. `time` is the bar's timestamp, `ema` its EMA(9) of the close, `signal`
      the detector's annotation (-1, 0 or +1 once detection has run). Volume is not read by
      the core and is omitted. */
  datatype Bar = Bar(time: int, open: real, high: real, low: real, close: real, ema: real, signal: int)

  /** The configuration dictionary. `riskPercentage` and `contractMargin` only feed the
      position-sizing arithmetic, whose results never reach an output. */
  datatype Config = Config(
    startingBalance: real,
    riskPercentage: real,
    tickSize: real,
    tickValue: real,
    commissionPerTrade: real,
    slippageTicks: real,
    tpTicks: real,
    slTicks: real,
    trailingStop: bool,
    trailingStopTicks: real,
    contractMargin: real)

  /** The module-level defaults (trail_backtesting.py:11-23). */
  const DefaultConfig := Config(100000.0, 0.01, 0.25, 5.0, 5.0, 1.0, 20.0, 20.0, false, 5.0, 13000.0)

  /** What the loader guarantees: bars in ascending (not necessarily strictly) time order. */
  predicate TimeOrdered(bars: seq<Bar>)
  {
    forall j, k :: 0 <= j <= k < |bars| ==> bars[j].time <= bars[k].time
  }
}
