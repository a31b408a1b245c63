/**
 * The backtest pipeline as far as the engine goes: signal detection on the bar series,
 * the trade simulation, and the ledger analysis. The analysis is always given the default
 * starting balance, whatever the run's configuration says.
 */
module Backtest {
  import opened Wrappers
  import opened Series
  import opened BarData
  import opened SignalDetector
  import opened TradeSimulator
  import opened PerformanceAnalyzer

  /** The initial balance the analysis receives: the default starting balance, fixed when
      the analyzer was defined and not affected by later configuration updates. */
  const AnalyzerInitialBalance := DefaultConfig.startingBalance

  /** What a completed backtest yields: the trade ledger and, when it has rows, its
      analysis. */
  datatype Report = Report(trades: seq<Trade>, analysis: Option<Analysis>)

  /** Detects signals in place, simulates, and analyses the ledger with the default
      balance. A simulation that aborts on a zero sizing divisor ends the run before any
      analysis. Loading the CSV, computing the EMA and writing reports are not modelled:
      the bars arrive with their EMA. */
  method RunBacktest(c: Config, a: array<Bar>) returns (result: Result<Report, SimError>)
    requires c.tickSize != 0.0
    modifies a
    ensures a[..] == Detected(old(a[..]))
    ensures result.Err? <==> SimulationOutcome(c, Detected(old(a[..]))).Err?
    ensures result.Ok? ==>
      && result.value.trades == Simulate(c, Detected(old(a[..])))
      && result.value.analysis == AnalyzePerformance(result.value.trades, AnalyzerInitialBalance)
  {
    DetectSignals(a);
    var outcome := SimulateTrades(c, a[..]);
    if outcome.Err? {
      return Err(outcome.error);
    }
    var trades := outcome.value;
    var analysis := AnalyzePerformance(trades, AnalyzerInitialBalance);
    result := Ok(Report(trades, analysis));
  }

  /** The analysis's cumulative balance and the simulator's balance column differ by
      exactly the gap between the default and the configured starting balance; they agree
      only when the configuration keeps the default. */
  lemma AnalysisUsesDefaultBalance(c: Config, bars: seq<Bar>)
    requires c.tickSize != 0.0
    requires Simulate(c, bars) != []
    ensures var trades := Simulate(c, bars);
      var cb := AnalyzePerformance(trades, AnalyzerInitialBalance).value.cumulativeBalance;
      && (forall k :: 0 <= k < |trades| ==>
            cb[k] == trades[k].balanceAfter - c.startingBalance + AnalyzerInitialBalance)
      && (c.startingBalance == AnalyzerInitialBalance <==>
            forall k :: 0 <= k < |trades| ==> cb[k] == trades[k].balanceAfter)
  {
    var trades := Simulate(c, bars);
    var cb := AnalyzePerformance(trades, AnalyzerInitialBalance).value.cumulativeBalance;
    assert LedgerBalanced(c.startingBalance, trades) by {
      LedgerAccounting(c, bars);
    }
    AnalysisOffset(c.startingBalance, trades, AnalyzerInitialBalance);
  }

  /** For a balanced ledger with starting balance `start`, the analysis's cumulative balance
      from `initial` is the ledger's balance column shifted by `initial - start`. */
  lemma AnalysisOffset(start: real, trades: seq<Trade>, initial: real)
    requires initial != 0.0 && trades != []
    requires LedgerBalanced(start, trades)
    ensures var cb := AnalyzePerformance(trades, initial).value.cumulativeBalance;
      && (forall k :: 0 <= k < |trades| ==> cb[k] == trades[k].balanceAfter - start + initial)
      && (start == initial <==> forall k :: 0 <= k < |trades| ==> cb[k] == trades[k].balanceAfter)
  {
    var cb := AnalyzePerformance(trades, initial).value.cumulativeBalance;
    AnalysisColumns(trades, initial);
    BalanceColumnOffset(start, trades, initial, cb);
  }

  /** On a balanced ledger, a column of initial balance plus running pnl differs from the
      ledger's balance column by exactly the two starting balances' difference. */
  lemma BalanceColumnOffset(start: real, trades: seq<Trade>, initial: real, cb: seq<real>)
    requires LedgerBalanced(start, trades) && trades != []
    requires |cb| == |trades|
    requires forall k :: 0 <= k < |trades| ==> cb[k] == initial + Sum(Pnls(trades)[..k + 1])
    ensures forall k :: 0 <= k < |trades| ==> cb[k] == trades[k].balanceAfter - start + initial
    ensures start == initial <==> forall k :: 0 <= k < |trades| ==> cb[k] == trades[k].balanceAfter
  {
    forall k | 0 <= k < |trades|
      ensures cb[k] == trades[k].balanceAfter - start + initial
    {
      assert Pnls(trades[..k + 1]) == Pnls(trades)[..k + 1];
    }
    assert cb[0] == trades[0].balanceAfter - start + initial;
  }


  /** A signal on bar 3 opens nothing: over the first five bars, whatever bars 0 to 3 hold,
      only bar 4 can open a position and no trade is recorded. */
  lemma SignalOnBarThreeIgnored(c: Config, bars: seq<Bar>)
    requires c.tickSize != 0.0
    requires |bars| == 5
    ensures Simulate(c, bars) == []
    ensures Run(c, bars).open.Some? <==> bars[4].signal != 0
  {
    assert Run(c, bars) == Step(c, Run(c, bars[..4]), bars[4]);
    assert Run(c, bars[..4]) == SimState(c.startingBalance, None, []);
  }
}
