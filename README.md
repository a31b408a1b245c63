# Backtest engine model

A Dafny model of the backtest engine of a single-instrument trend-reversal strategy run on
minute bars (`trail_backtesting.py`). It covers three stages:

- **Signal detection** (`SignalDetector`, `signals.dfy`). Bar `i` is marked +1 when the three
  bars before it all closed below their open and below their EMA and bar `i` closes above its
  EMA. It is marked -1 in the mirrored case, and 0 otherwise. Bars 0-2 always keep 0.
  `DetectSignals` rewrites the signal field of an `array<Bar>` in place. Its result is
  specified by `SignalAt` / `Detected`.
- **Trade simulation** (`TradeSimulator`, `simulator.dfy`). This is a Flat / Long / Short state
  machine. `SimulateTrades` is the loop over bars 4 onward: it mutates the balance, the open
  position and the ledger, and uses `continue` as the source does. It is proved equal to
  `SimulationOutcome`: the sizing error when there is a bar to visit and a sizing divisor is
  zero, otherwise `Ok(Simulate(c, bars))`, where `Simulate` is a left fold of the one-bar
  function `Step`. `Step` checks exits first (take
  profit before stop, with the trailing-stop ratchet applied before the check). It then
  applies the entry rule: a non-zero signal opens one contract at the bar's close. Lemmas
  about `Step` and `Run` state what the ledger guarantees.
- **Ledger analysis** (`PerformanceAnalyzer`, `performance.dfy`). It computes the win rate,
  the average win and loss, total pnl, profit percentage, the cumulative pnl and balance
  columns, the running peak, the maximum drawdown, and the best and worst trade.
  `Backtest.RunBacktest` (`backtest.dfy`) chains the three stages. It passes the analysis
  the default starting balance of 100000, as the source does.

Prices and money are exact `real`s. Bars are records
`Bar(time, open, high, low, close, ema, signal)`. The configuration is the `Config` record.
`DefaultConfig` holds the module-level defaults.

Two facts about the code shape what the ledger can contain:
- The simulation loop starts at bar 4 (trail_backtesting.py:62), so a signal on bar 3 is
  never traded. See `EarlyBarsIgnored` and `SignalOnBarThreeIgnored`.
- After an exit, the same bar's non-zero signal opens a new position
  (trail_backtesting.py:131-143). See `StepRule`.

The loop also computes two position-size bounds by floor division (trail_backtesting.py:65-67)
and never uses them. A zero contract margin, or a zero stop value (stop ticks × tick value),
makes that division raise on the first simulated bar. `SimulationOutcome` models this abort
as an error result.

## Model

| member | source | states |
|---|---|---|
| SignalDetector.DetectSignals | trail_backtesting.py:39-54 | after the call each bar equals its old value with the signal replaced by the detector's mark; prices, EMA and times are unchanged |
| SignalDetector.SignalAt | trail_backtesting.py:40-52 | every signal is -1, 0 or +1, and bars 0-2 are always 0 |
| SignalDetector.Detected | trail_backtesting.py:40-52 | the annotated series has the input's length, each bar differs from its input only in the signal, and that signal is the bar's mark |
| SignalDetector.FallingBelowAverage | trail_backtesting.py:46 | the bearish window test holds exactly when every bar of the window closed below both its open and its EMA |
| SignalDetector.RisingAboveAverage | trail_backtesting.py:50 | the bullish window test holds exactly when every bar of the window closed above both its open and its EMA |
| SignalDetector.PatternsExclusive | trail_backtesting.py:46-51 | no non-empty window passes both the bearish and the bullish window test |
| SignalDetector.SignalPattern | trail_backtesting.py:46-52 | +1 exactly when bars i-3..i-1 are bearish below the EMA and bar i closes above it; -1 exactly in the mirrored case; the two window tests never both pass, so the short test never overwrites a long mark |
| SignalDetector.SignalIsLocal | trail_backtesting.py:43-47 | a bar's mark depends only on the four-bar window ending at it |
| TradeSimulator.Brackets | trail_backtesting.py:72-73 | the take profit lies tp_ticks × tick_size beyond the entry in the position's favour and the initial stop sl_ticks × tick_size against it (short: lines 91-92); with positive tick counts and tick size the entry lies strictly between them |
| TradeSimulator.Tracked | trail_backtesting.py:75-79 | the trailing bookkeeping changes only the side's own extreme, so entry, side, quantity and the other extreme are kept; without trailing the position is unchanged; with it a long's tracked high becomes the larger of the old one and the bar's high (a short's low mirrors this, lines 94-98) |
| TradeSimulator.StopPrice | trail_backtesting.py:71-98 | without trailing the stop is the fixed stop; with it a long's stop is the larger of the fixed stop and the tracked high minus the trailing distance (both bounds hold and one is attained); a short's is the smaller of the fixed stop and the tracked low plus it |
| TradeSimulator.ExitAt | trail_backtesting.py:81-107 | a TP exit is at exactly the take-profit price, an SL exit at exactly the stop in force, and an SL exit only when the take profit was not reached |
| TradeSimulator.CheckExit | trail_backtesting.py:70-107 | the exit block yields the tracked position, the take-profit and stop prices and the exit that the exit rule specifies |
| TradeSimulator.CheckLongExit | trail_backtesting.py:71-88 | the long branch yields the tracked position, prices and exit that the exit rule specifies |
| TradeSimulator.CheckShortExit | trail_backtesting.py:90-107 | the short branch yields the tracked position, prices and exit that the exit rule specifies |
| TradeSimulator.RoundTripCost | trail_backtesting.py:114 | with the default configuration one round trip costs 15 (commission 5 plus one tick of slippage at 5 on each leg) |
| TradeSimulator.CostCoversCommission | trail_backtesting.py:114 | with non-negative commission, slippage and tick value a round trip costs at least the commission |
| TradeSimulator.GrossPnl | trail_backtesting.py:110-112 | exiting at the entry price gives zero gross pnl; with positive tick value, tick size and quantity the gross pnl is positive exactly when the price moved in the position's favour |
| TradeSimulator.NetPnl | trail_backtesting.py:109-115 | exiting at the entry price loses exactly the round-trip cost; with positive tick value, tick size and quantity, a trade beats the cost exactly when the price moved in its favour |
| TradeSimulator.CloseTrade | trail_backtesting.py:109-130 | the row records the position's entry, side and quantity, the exit's price and reason, the stop and take profit in force, pnl by the pnl formula, and the balance plus that pnl |
| TradeSimulator.RecordExit | trail_backtesting.py:109-130 | the inline accounting produces exactly the closing row, whose balance is the old balance plus its pnl |
| TradeSimulator.Enter | trail_backtesting.py:133-143 | entry never touches balance or ledger; a position opens exactly when flat, the signal is non-zero and the quantity is at least 1, at the bar's time and close, long exactly for +1 |
| TradeSimulator.Step | trail_backtesting.py:70-143 | one bar adds at most one row and keeps the earlier ones; a new row's balance is the old balance plus its pnl and becomes the balance; without a row the balance is unchanged and an open position is carried in tracked form |
| TradeSimulator.Run | trail_backtesting.py:57-143 | after n bars the rows plus the open position number at most n - 4, so at most n - 5 rows |
| TradeSimulator.Simulate | trail_backtesting.py:57-146 | five bars or fewer give an empty ledger; otherwise at most n - 5 rows |
| TradeSimulator.SizingDivisorZero | trail_backtesting.py:65-67 | a sizing division fails exactly when the contract margin, the stop ticks or the tick value is zero |
| TradeSimulator.SimulationOutcome | trail_backtesting.py:62-67 | the simulation aborts exactly when there is a bar to simulate and the margin or the stop value is zero; otherwise it yields the specified ledger |
| TradeSimulator.SimulateTrades | trail_backtesting.py:57-146 | the loop returns exactly the specified outcome; on success every row's balance is the starting balance plus the running pnl and every row is well formed |
| TradeSimulator.ExitRule | trail_backtesting.py:81-88 | long: TP exactly when high reaches the take profit; SL exactly when it does not and low reaches the stop; otherwise no exit; short mirrored (lines 100-107) |
| TradeSimulator.TrailingStopRatchets | trail_backtesting.py:75-98 | over one bar a long's stop never drops and a short's never climbs |
| TradeSimulator.StopNeverLoosens | trail_backtesting.py:75-98 | from one bar to the next of the same position the stop in force never moves against the position |
| TradeSimulator.StepRule | trail_backtesting.py:70-143 | a row is added exactly when a position was open and its tracked form exits, and the row is the closing of that position; when flat or after an exit, a non-zero signal opens one contract at the close, long for +1 and short otherwise |
| TradeSimulator.AppendBalanced | trail_backtesting.py:116-127 | appending a row whose balance is the old total plus its pnl keeps every row's balance equal to start plus the running pnl |
| TradeSimulator.CloseTradeWellFormed | trail_backtesting.py:72-129 | a closed row has quantity 1, take profit at the fixed distance, a stop never looser than the fixed one (equal without trailing), the exit at the threshold its reason names, and the pnl formula |
| TradeSimulator.StepConsistent | trail_backtesting.py:62-143 | one bar keeps the simulation invariant: balance = start + Σ pnl, balanced rows, well-formed rows, open quantity 1 |
| TradeSimulator.RunConsistent | trail_backtesting.py:58-143 | the simulation invariant holds after every prefix of the series |
| TradeSimulator.LedgerAccounting | trail_backtesting.py:110-127 | every row's balance is start + Σ pnl up to it; the last row's balance is start + Σ all pnl; every row is well formed |
| TradeSimulator.StepChronological | trail_backtesting.py:118-143 | one bar keeps the ledger's holding intervals ordered and non-overlapping |
| TradeSimulator.RunChronological | trail_backtesting.py:62-143 | on a time-ordered series the ordering invariant holds after every prefix |
| TradeSimulator.TradesDoNotOverlap | trail_backtesting.py:133-143 | at most one position at a time: each trade exits no earlier than it entered, and every earlier trade exits no later than a later one enters |
| TradeSimulator.EarlyBarsIgnored | trail_backtesting.py:62 | the simulation depends only on bars 4 onward, so bars 0-3 (and a signal on bar 3) never trade |
| TradeSimulator.DefaultTakeProfitScenario | trail_backtesting.py:72-127 | with the defaults a long opened at P exits at exactly P + 5 with reason TP when a bar's high reaches P + 5, booking 85 after costs |
| PerformanceAnalyzer.AnalyzePerformance | trail_backtesting.py:149-177 | no metrics exactly for an empty ledger; otherwise one cumulative value per trade, win rate in [0, 1], average win ≥ 0, average loss ≤ 0, maximum drawdown ≥ 0, best ≥ worst |
| PerformanceAnalyzer.Filter | trail_backtesting.py:153-156 | the mask keeps exactly the matching values; it keeps all exactly when every value matches and none exactly when no value does |
| PerformanceAnalyzer.FilterMultiplicity | trail_backtesting.py:155-156 | each value the mask keeps occurs in the selection as often as in the column, and other values not at all |
| PerformanceAnalyzer.FilterAppend | trail_backtesting.py:155-156 | selecting from a column with one more value appends that value exactly when the mask keeps it |
| PerformanceAnalyzer.FilterCount | trail_backtesting.py:153-156 | the selection has one value per selected position |
| PerformanceAnalyzer.WinsSum | trail_backtesting.py:155 | the selected winners sum to the column's total of positive values |
| PerformanceAnalyzer.LossesSum | trail_backtesting.py:156 | the selected losers sum to the column's total of negative values |
| PerformanceAnalyzer.WinLossCounts | trail_backtesting.py:153-156 | there are as many selected winners (losers) as positions with positive (negative) pnl |
| PerformanceAnalyzer.MeanOrZero | trail_backtesting.py:155-156 | the average of an empty selection is 0; otherwise the average times the count is the selection's sum |
| PerformanceAnalyzer.WinRateAndAverages | trail_backtesting.py:153-156 | win rate = number of trades with positive pnl / number of trades; average win = total of positive pnls / their number, 0 when none; average loss likewise over negative pnls |
| PerformanceAnalyzer.RunningSumAt | trail_backtesting.py:159 | the running sum at k is the accumulator plus the sum of the first k+1 values |
| PerformanceAnalyzer.CumSum | trail_backtesting.py:159 | one value per input, and the value at k is the sum of the first k+1 inputs |
| PerformanceAnalyzer.CumMax | trail_backtesting.py:161 | one value per input, and the value at k is at least each of the first k+1 inputs |
| PerformanceAnalyzer.Drawdowns | trail_backtesting.py:161 | one drawdown per balance, never negative, and at least the decline to that balance from any earlier one |
| PerformanceAnalyzer.RunningMaxAt | trail_backtesting.py:161 | the running maximum at k bounds the start and the first k+1 values and equals one of them |
| PerformanceAnalyzer.CumMaxAt | trail_backtesting.py:161 | the cumulative maximum at k is one of the first k+1 values (with `CumMax`: it is their largest) |
| PerformanceAnalyzer.MaxDrawdown | trail_backtesting.py:161 | the maximum drawdown is ≥ 0 and no balance lies further below its running peak |
| PerformanceAnalyzer.DrawdownIsLargestDecline | trail_backtesting.py:161 | the maximum drawdown bounds the decline from every balance to every later one, is attained by one such decline, and is ≥ 0 |
| PerformanceAnalyzer.AverageSigns | trail_backtesting.py:155-156 | the average win is > 0 exactly when some trade won and 0 otherwise; the average loss is < 0 exactly when some trade lost and 0 otherwise |
| PerformanceAnalyzer.WinRateExtremes | trail_backtesting.py:153 | the win rate is 0 exactly when no trade has positive pnl and 1 exactly when all do |
| PerformanceAnalyzer.AnalysisColumns | trail_backtesting.py:157-175 | cumulative pnl at row k is Σ pnl up to k and ends at the total pnl; cumulative balance is the initial balance plus it; best and worst trade are the largest and smallest pnl and occur in the ledger |
| PerformanceAnalyzer.AnalysisDrawdown | trail_backtesting.py:160-161 | the reported drawdown is the largest decline of the cumulative balance from a row to a later one |
| Series.SumSign | trail_backtesting.py:155-157 | a non-empty column of positive values has a positive sum, one of negative values a negative sum |
| Series.SumAppend | trail_backtesting.py:157-159 | the sum of a column with one more value is the old sum plus that value |
| Series.Max | trail_backtesting.py:174 | the best trade is a value of the column and no value exceeds it |
| Series.Min | trail_backtesting.py:175 | the worst trade is a value of the column and no value is below it |
| Backtest.RunBacktest | trail_backtesting.py:266-279 | signals are detected in place; the run fails exactly when the simulation of the annotated bars aborts; otherwise the ledger is that simulation and the analysis receives the default balance |
| Backtest.AnalysisUsesDefaultBalance | trail_backtesting.py:149 | the analysis's cumulative balance equals the ledger's balance minus the configured start plus 100000; the two agree exactly when the configured start is the default |
| Backtest.AnalysisOffset | trail_backtesting.py:149-160 | for a balanced ledger the analysis's cumulative balance at each row is the ledger's balance minus the start plus the analysis's initial balance; the two columns agree exactly when start and initial balance are equal |
| Backtest.BalanceColumnOffset | trail_backtesting.py:159-160 | a column of initial balance plus running pnl is a balanced ledger's balance column shifted by initial minus start |
| Backtest.SignalOnBarThreeIgnored | trail_backtesting.py:62 | on a five-bar series nothing is ever traded, and a position is open at the end exactly when bar 4 has a signal |

## Left out

- Loading the CSV (`load_minute_data`): parsing, renaming and timezone stripping are not
  modelled. Bars arrive as a sequence. Where ordering matters, time order is a precondition
  (`TimeOrdered`).
- The signal detector reads bars by position but writes the signal by index label. After the
  loader's sort those agree only when the file was already in time order. The model assumes
  they agree.
- EMA computation (`calculate_ema`, pandas `ewm`): every bar carries its `ema` as given input.
- Sharpe ratio: the sample standard deviation and square root are floating-point numerics.
  The metrics record has no Sharpe field.
- Reports and charts (`save_trades`, `save_metrics`, `plot_trades`), the progress bar and the
  command-line runner that reads the JSON configuration (`CONFIG.update`) are I/O. The
  configuration is a parameter of the model.
- Position sizing (trail_backtesting.py:65-67): the margin- and risk-based contract counts
  are never used, so their values are not computed. Only the division-by-zero abort is
  modelled (`SimulationOutcome`). `Config` keeps `riskPercentage` for shape. The `qty < 1`
  guard is kept in `Enter`, and the quantity is proved to be always 1.
- Floating point: prices, pnl and balances are exact reals, so IEEE rounding is not
  modelled. With a zero tick size or a zero initial balance the source produces numpy
  inf/NaN values. `Step`, `SimulateTrades` and `AnalyzePerformance` therefore require these
  to be non-zero.
- TradeSimulator.SimulateTrades: the open position is a dict updated in place in the source.
  The model replaces it with a record value (`p.(maxPrice := …)`). Nothing else refers to it,
  so no aliasing is lost.
- PerformanceAnalyzer.AnalyzePerformance: the source adds the `cumulative_pnl` and
  `cumulative_balance` columns to the caller's ledger table in place. The model returns them
  in `Analysis` instead. Its contract does not restate `profit_percentage`, which is
  total pnl / initial balance × 100 by definition.
- Volume is not read by the engine and is not part of `Bar`.
