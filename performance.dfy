/**
 * The performance analyzer: reduces the ledger to win rate, averages, totals, the running
 * (cumulative) balance, its running peak and the largest peak-to-trough decline.
 */
module PerformanceAnalyzer {
  import opened Wrappers
  import opened Series
  import opened TradeSimulator

  datatype Metrics = Metrics(
    totalTrades: nat,
    winRate: real,
    avgWin: real,
    avgLoss: real,
    totalPnl: real,
    profitPercentage: real,
    maxDrawdown: real,
    bestTrade: real,
    worstTrade: real)

  /** The metrics together with the two columns the analysis adds to the ledger. */
  datatype Analysis = Analysis(metrics: Metrics, cumulativePnl: seq<real>, cumulativeBalance: seq<real>)

  /** The values of a column selected by a boolean mask, in order. */
  function Filter(xs: seq<real>, keep: real -> bool): (r: seq<real>)
    ensures |r| <= |xs|
    ensures forall x :: x in r <==> x in xs && keep(x)
    ensures |r| == |xs| <==> forall k :: 0 <= k < |xs| ==> keep(xs[k])
    ensures r == [] <==> forall k :: 0 <= k < |xs| ==> !keep(xs[k])
  {
    if xs == [] then []
    else
      var rest := Filter(xs[1..], keep);
      assert forall k :: 1 <= k < |xs| ==> xs[k] == xs[1..][k - 1];
      if keep(xs[0]) then [xs[0]] + rest else rest
  }

  /** Each value the mask keeps occurs in the selection as often as in the column. */
  lemma {:induction false} FilterMultiplicity(xs: seq<real>, keep: real -> bool, x: real)
    ensures multiset(Filter(xs, keep))[x] == if keep(x) then multiset(xs)[x] else 0
  {
    if xs != [] {
      FilterMultiplicity(xs[1..], keep, x);
      assert xs == [xs[0]] + xs[1..];
      assert multiset(xs) == multiset{xs[0]} + multiset(xs[1..]);
    }
  }

  /** The positions of a column the mask selects. */
  ghost function Selected(xs: seq<real>, keep: real -> bool): set<int>
  {
    set k | 0 <= k < |xs| && keep(xs[k])
  }

  /** Appending a value extends the selection by that value when the mask keeps it. */
  lemma {:induction false} FilterAppend(xs: seq<real>, x: real, keep: real -> bool)
    ensures Filter(xs + [x], keep) == Filter(xs, keep) + if keep(x) then [x] else []
  {
    if xs != [] {
      assert (xs + [x])[1..] == xs[1..] + [x];
      FilterAppend(xs[1..], x, keep);
    }
  }

  /** The selection holds one value per selected position. */
  lemma {:induction false} FilterCount(xs: seq<real>, keep: real -> bool)
    ensures |Filter(xs, keep)| == |Selected(xs, keep)|
    decreases |xs|
  {
    if xs == [] {
      assert Selected(xs, keep) == {};
    } else {
      var n := |xs| - 1;
      var init := xs[..n];
      assert xs == init + [xs[n]];
      FilterAppend(init, xs[n], keep);
      FilterCount(init, keep);
      SelectedAppend(xs, keep);
    }
  }

  /** The positions selected in a column are those selected in all but its last value,
      plus the last position when the mask keeps that value. */
  lemma SelectedAppend(xs: seq<real>, keep: real -> bool)
    requires xs != []
    ensures var n := |xs| - 1;
      |Selected(xs, keep)| == |Selected(xs[..n], keep)| + if keep(xs[n]) then 1 else 0
  {
    var n := |xs| - 1;
    var init := Selected(xs[..n], keep);
    assert n !in init;
    if keep(xs[n]) {
      assert Selected(xs, keep) == init + {n};
    } else {
      assert Selected(xs, keep) == init;
    }
  }

  /** The total of the positive values of a column. */
  function PositiveSum(xs: seq<real>): real
  {
    if xs == [] then 0.0 else (if xs[0] > 0.0 then xs[0] else 0.0) + PositiveSum(xs[1..])
  }

  /** The total of the negative values of a column. */
  function NegativeSum(xs: seq<real>): real
  {
    if xs == [] then 0.0 else (if xs[0] < 0.0 then xs[0] else 0.0) + NegativeSum(xs[1..])
  }

  /** Summing the winning values selected from a column gives its positive total. */
  lemma {:induction false} WinsSum(xs: seq<real>)
    ensures Sum(Filter(xs, x => x > 0.0)) == PositiveSum(xs)
  {
    if xs != [] {
      WinsSum(xs[1..]);
      var rest := Filter(xs[1..], x => x > 0.0);
      assert ([xs[0]] + rest)[1..] == rest;
    }
  }

  /** Summing the losing values selected from a column gives its negative total. */
  lemma {:induction false} LossesSum(xs: seq<real>)
    ensures Sum(Filter(xs, x => x < 0.0)) == NegativeSum(xs)
  {
    if xs != [] {
      LossesSum(xs[1..]);
      var rest := Filter(xs[1..], x => x < 0.0);
      assert ([xs[0]] + rest)[1..] == rest;
    }
  }

  function Mean(xs: seq<real>): real
    requires xs != []
  {
    Sum(xs) / |xs| as real
  }

  /** The running sum of a column, accumulated from `acc`. */
  function RunningSum(acc: real, xs: seq<real>): (r: seq<real>)
    ensures |r| == |xs|
    decreases |xs|
  {
    if xs == [] then [] else [acc + xs[0]] + RunningSum(acc + xs[0], xs[1..])
  }

  /** The running maximum of a column, starting from `peak`. */
  function RunningMax(peak: real, xs: seq<real>): (r: seq<real>)
    ensures |r| == |xs|
    decreases |xs|
  {
    if xs == [] then []
    else
      var m := RealMax(peak, xs[0]);
      [m] + RunningMax(m, xs[1..])
  }

  /** Cumulative sum of a column: the value at k is the sum of the first k+1 values. */
  function CumSum(xs: seq<real>): (r: seq<real>)
    ensures |r| == |xs|
    ensures forall k :: 0 <= k < |xs| ==> r[k] == Sum(xs[..k + 1])
  {
    forall k | 0 <= k < |xs|
      ensures RunningSum(0.0, xs)[k] == Sum(xs[..k + 1])
    {
      RunningSumAt(0.0, xs, k);
    }
    RunningSum(0.0, xs)
  }

  /** Cumulative maximum of a column: the value at k bounds the first k+1 values (and is
      one of them, as `CumMaxAt` shows). */
  function CumMax(xs: seq<real>): (r: seq<real>)
    ensures |r| == |xs|
    ensures forall k, j :: 0 <= j <= k < |xs| ==> xs[j] <= r[k]
  {
    if xs == [] then []
    else
      forall k | 0 <= k < |xs|
        ensures forall j :: 0 <= j <= k ==> xs[j] <= RunningMax(xs[0], xs)[k]
      {
        RunningMaxAt(xs[0], xs, k);
      }
      RunningMax(xs[0], xs)
  }

  /** Distance of each balance below its running peak: never negative, and at least the
      decline to it from any earlier balance. */
  function Drawdowns(balances: seq<real>): (r: seq<real>)
    ensures |r| == |balances|
    ensures forall k :: 0 <= k < |balances| ==> r[k] >= 0.0
    ensures forall k, j :: 0 <= j <= k < |balances| ==> balances[j] - balances[k] <= r[k]
  {
    var peaks := CumMax(balances);
    seq(|balances|, k requires 0 <= k < |balances| => peaks[k] - balances[k])
  }

  /** The largest drawdown: never negative, and no drawdown exceeds it. */
  function MaxDrawdown(balances: seq<real>): (r: real)
    requires balances != []
    ensures r >= 0.0
    ensures forall k :: 0 <= k < |balances| ==> CumMax(balances)[k] - balances[k] <= r
  {
    var dd := Drawdowns(balances);
    assert forall k :: 0 <= k < |balances| ==> dd[k] == CumMax(balances)[k] - balances[k];
    assert dd[0] >= 0.0;
    Max(dd)
  }

  /** The running sum at position k is the accumulator plus the sum of the first k+1 values. */
  lemma {:induction false} RunningSumAt(acc: real, xs: seq<real>, k: nat)
    requires k < |xs|
    ensures RunningSum(acc, xs)[k] == acc + Sum(xs[..k + 1])
    decreases k
  {
    if k > 0 {
      RunningSumAt(acc + xs[0], xs[1..], k - 1);
      assert xs[..k + 1][1..] == xs[1..][..k];
    }
  }

  /** The running maximum at position k bounds the start value and the first k+1 values,
      and equals one of them. */
  lemma {:induction false} RunningMaxAt(peak: real, xs: seq<real>, k: nat)
    requires k < |xs|
    ensures RunningMax(peak, xs)[k] >= peak
    ensures forall j :: 0 <= j <= k ==> RunningMax(peak, xs)[k] >= xs[j]
    ensures RunningMax(peak, xs)[k] == peak || exists j :: 0 <= j <= k && RunningMax(peak, xs)[k] == xs[j]
    decreases k
  {
    if k > 0 {
      var m := RealMax(peak, xs[0]);
      RunningMaxAt(m, xs[1..], k - 1);
      assert RunningMax(peak, xs)[k] == RunningMax(m, xs[1..])[k - 1];
      forall j | 1 <= j <= k
        ensures RunningMax(peak, xs)[k] >= xs[j]
      {
        assert xs[j] == xs[1..][j - 1];
      }
      if RunningMax(peak, xs)[k] != peak && RunningMax(peak, xs)[k] != xs[0] {
        var j' :| 0 <= j' <= k - 1 && RunningMax(m, xs[1..])[k - 1] == xs[1..][j'];
        assert RunningMax(peak, xs)[k] == xs[j' + 1];
      }
    }
  }

  /** The cumulative maximum at position k is one of the first k+1 values. */
  lemma CumMaxAt(xs: seq<real>, k: nat)
    requires k < |xs|
    ensures exists j :: 0 <= j <= k && CumMax(xs)[k] == xs[j]
  {
    RunningMaxAt(xs[0], xs, k);
  }

  /** The maximum drawdown is the largest decline from a balance to any later balance: it
      bounds every such decline, some decline attains it, and it is never negative. */
  lemma DrawdownIsLargestDecline(balances: seq<real>)
    requires balances != []
    ensures MaxDrawdown(balances) >= 0.0
    ensures forall j, k :: 0 <= j <= k < |balances| ==> balances[j] - balances[k] <= MaxDrawdown(balances)
    ensures exists j, k :: 0 <= j <= k < |balances| && balances[j] - balances[k] == MaxDrawdown(balances)
  {
    var dd := Drawdowns(balances);
    var m := MaxDrawdown(balances);
    forall j, k | 0 <= j <= k < |balances|
      ensures balances[j] - balances[k] <= m
    {
      assert dd[k] <= m;
    }
    var k :| 0 <= k < |dd| && dd[k] == m;
    CumMaxAt(balances, k);
    var j :| 0 <= j <= k && CumMax(balances)[k] == balances[j];
    assert balances[j] - balances[k] == m;
  }

  /** Average of the selected values, or 0 when none is selected: times the number of
      values it gives back their sum. */
  function MeanOrZero(xs: seq<real>): (r: real)
    ensures xs == [] ==> r == 0.0
    ensures r * |xs| as real == Sum(xs)
  {
    if xs == [] then 0.0
    else
      var n := |xs| as real;
      assert Mean(xs) * n == Sum(xs);
      Mean(xs)
  }

  /** The ledger reduction. An empty ledger gives no metrics; otherwise the win rate is the
      fraction of trades with positive pnl, the averages are over winning and losing trades
      (0 when there are none), and the cumulative balance starts from `initialBalance`. */
  function AnalyzePerformance(trades: seq<Trade>, initialBalance: real): (r: Option<Analysis>)
    requires initialBalance != 0.0
    ensures r.None? <==> trades == []
    ensures r.Some? ==>
      && r.value.metrics.totalTrades == |trades|
      && |r.value.cumulativePnl| == |trades| && |r.value.cumulativeBalance| == |trades|
      && 0.0 <= r.value.metrics.winRate <= 1.0
      && r.value.metrics.avgWin >= 0.0 && r.value.metrics.avgLoss <= 0.0
      && r.value.metrics.maxDrawdown >= 0.0
      && r.value.metrics.bestTrade >= r.value.metrics.worstTrade
  {
    if trades == [] then None
    else
      var pnls := Pnls(trades);
      var wins := Filter(pnls, x => x > 0.0);
      var losses := Filter(pnls, x => x < 0.0);
      var winRate := |wins| as real / |pnls| as real;
      var totalPnl := Sum(pnls);
      var cumulativePnl := CumSum(pnls);
      var cumulativeBalance := seq(|pnls|, k requires 0 <= k < |pnls| => initialBalance + cumulativePnl[k]);
      DrawdownIsLargestDecline(cumulativeBalance);
      AverageSigns(pnls);
      Fraction(|wins| as real, |pnls| as real);
      var metrics := Metrics(
        |trades|, winRate, MeanOrZero(wins), MeanOrZero(losses), totalPnl,
        totalPnl / initialBalance * 100.0, MaxDrawdown(cumulativeBalance), Max(pnls), Min(pnls));
      Some(Analysis(metrics, cumulativePnl, cumulativeBalance))
  }

  /** The average win is positive exactly when some trade won (else 0), and the average
      loss is negative exactly when some trade lost (else 0). */
  lemma AverageSigns(pnls: seq<real>)
    ensures var wins := Filter(pnls, x => x > 0.0);
      (MeanOrZero(wins) > 0.0 <==> exists k :: 0 <= k < |pnls| && pnls[k] > 0.0) &&
      (MeanOrZero(wins) == 0.0 <==> forall k :: 0 <= k < |pnls| ==> pnls[k] <= 0.0)
    ensures var losses := Filter(pnls, x => x < 0.0);
      (MeanOrZero(losses) < 0.0 <==> exists k :: 0 <= k < |pnls| && pnls[k] < 0.0) &&
      (MeanOrZero(losses) == 0.0 <==> forall k :: 0 <= k < |pnls| ==> pnls[k] >= 0.0)
  {
    var wins := Filter(pnls, x => x > 0.0);
    if wins != [] {
      assert forall k :: 0 <= k < |wins| ==> wins[k] in wins;
      SumSign(wins);
      QuotientSign(Sum(wins), |wins| as real);
    }
    var losses := Filter(pnls, x => x < 0.0);
    if losses != [] {
      assert forall k :: 0 <= k < |losses| ==> losses[k] in losses;
      SumSign(losses);
      QuotientSign(Sum(losses), |losses| as real);
    }
  }

  /** Win rate extremes: 0 exactly when no trade has positive pnl, 1 exactly when all do. */
  lemma WinRateExtremes(trades: seq<Trade>, initialBalance: real)
    requires initialBalance != 0.0 && trades != []
    ensures var m := AnalyzePerformance(trades, initialBalance).value.metrics;
      && (m.winRate == 0.0 <==> forall k :: 0 <= k < |trades| ==> trades[k].pnl <= 0.0)
      && (m.winRate == 1.0 <==> forall k :: 0 <= k < |trades| ==> trades[k].pnl > 0.0)
  {
    var pnls := Pnls(trades);
    var wins := Filter(pnls, x => x > 0.0);
    Fraction(|wins| as real, |pnls| as real);
  }

  /** Over a pnl column, as many values are selected as winners (losers) as there are
      positions with positive (negative) pnl. */
  lemma WinLossCounts(pnls: seq<real>)
    ensures |Filter(pnls, x => x > 0.0)| == |set k | 0 <= k < |pnls| && pnls[k] > 0.0|
    ensures |Filter(pnls, x => x < 0.0)| == |set k | 0 <= k < |pnls| && pnls[k] < 0.0|
  {
    FilterCount(pnls, x => x > 0.0);
    assert Selected(pnls, x => x > 0.0) == set k | 0 <= k < |pnls| && pnls[k] > 0.0;
    FilterCount(pnls, x => x < 0.0);
    assert Selected(pnls, x => x < 0.0) == set k | 0 <= k < |pnls| && pnls[k] < 0.0;
  }

  /** How the win rate and the averages are computed from the pnl column. */
  lemma MetricsOfColumn(trades: seq<Trade>, initialBalance: real)
    requires initialBalance != 0.0 && trades != []
    ensures var m := AnalyzePerformance(trades, initialBalance).value.metrics;
      var pnls := Pnls(trades);
      && m.winRate == |Filter(pnls, x => x > 0.0)| as real / |trades| as real
      && m.avgWin == MeanOrZero(Filter(pnls, x => x > 0.0))
      && m.avgLoss == MeanOrZero(Filter(pnls, x => x < 0.0))
  {
  }

  /** The winning (losing) rows of the ledger are the positions of positive (negative)
      values in its pnl column. */
  lemma RowsOfColumn(trades: seq<Trade>)
    ensures (set k | 0 <= k < |trades| && trades[k].pnl > 0.0) == set k | 0 <= k < |Pnls(trades)| && Pnls(trades)[k] > 0.0
    ensures (set k | 0 <= k < |trades| && trades[k].pnl < 0.0) == set k | 0 <= k < |Pnls(trades)| && Pnls(trades)[k] < 0.0
  {
    var pnls := Pnls(trades);
    var winRows := set k | 0 <= k < |trades| && trades[k].pnl > 0.0;
    var winCells := set k | 0 <= k < |pnls| && pnls[k] > 0.0;
    assert forall k :: k in winRows <==> k in winCells;
    var lossRows := set k | 0 <= k < |trades| && trades[k].pnl < 0.0;
    var lossCells := set k | 0 <= k < |pnls| && pnls[k] < 0.0;
    assert forall k :: k in lossRows <==> k in lossCells;
  }

  /** The win rate is the number of winning trades over the number of trades; the average
      win is the total pnl of the winning trades over their number, and 0 when no trade
      won; likewise the average loss over the losing trades. */
  lemma WinRateAndAverages(trades: seq<Trade>, initialBalance: real)
    requires initialBalance != 0.0 && trades != []
    ensures var m := AnalyzePerformance(trades, initialBalance).value.metrics;
      var winners := set k | 0 <= k < |trades| && trades[k].pnl > 0.0;
      var losers := set k | 0 <= k < |trades| && trades[k].pnl < 0.0;
      && m.winRate == |winners| as real / |trades| as real
      && m.avgWin == (if winners == {} then 0.0 else PositiveSum(Pnls(trades)) / |winners| as real)
      && m.avgLoss == (if losers == {} then 0.0 else NegativeSum(Pnls(trades)) / |losers| as real)
  {
    var pnls := Pnls(trades);
    MetricsOfColumn(trades, initialBalance);
    RowsOfColumn(trades);
    WinLossCounts(pnls);
    WinsSum(pnls);
    LossesSum(pnls);
  }

  /** The added columns: the cumulative pnl at row k is the sum of the first k+1 pnl values
      and ends at the total; the cumulative balance is the initial balance plus it. Best
      and worst trade are the largest and smallest pnl. */
  lemma AnalysisColumns(trades: seq<Trade>, initialBalance: real)
    requires initialBalance != 0.0 && trades != []
    ensures var a := AnalyzePerformance(trades, initialBalance).value;
      && (forall k :: 0 <= k < |trades| ==> a.cumulativePnl[k] == Sum(Pnls(trades)[..k + 1]))
      && (forall k :: 0 <= k < |trades| ==> a.cumulativeBalance[k] == initialBalance + a.cumulativePnl[k])
      && a.cumulativePnl[|trades| - 1] == a.metrics.totalPnl
      && a.metrics.totalPnl == Sum(Pnls(trades))
      && (forall k :: 0 <= k < |trades| ==> a.metrics.worstTrade <= trades[k].pnl <= a.metrics.bestTrade)
      && (exists k :: 0 <= k < |trades| && trades[k].pnl == a.metrics.bestTrade)
      && (exists k :: 0 <= k < |trades| && trades[k].pnl == a.metrics.worstTrade)
  {
    var pnls := Pnls(trades);
    assert pnls[..|trades|] == pnls;
    var best := Max(pnls);
    var kb :| 0 <= kb < |pnls| && pnls[kb] == best;
    var worst := Min(pnls);
    var kw :| 0 <= kw < |pnls| && pnls[kw] == worst;
  }

  /** The maximum drawdown of the analysis is the largest decline of the cumulative balance
      from any row to a later one. */
  lemma AnalysisDrawdown(trades: seq<Trade>, initialBalance: real)
    requires initialBalance != 0.0 && trades != []
    ensures var a := AnalyzePerformance(trades, initialBalance).value;
      && (forall j, k :: 0 <= j <= k < |trades| ==>
            a.cumulativeBalance[j] - a.cumulativeBalance[k] <= a.metrics.maxDrawdown)
      && (exists j, k :: 0 <= j <= k < |trades| &&
            a.cumulativeBalance[j] - a.cumulativeBalance[k] == a.metrics.maxDrawdown)
  {
    var a := AnalyzePerformance(trades, initialBalance).value;
    DrawdownIsLargestDecline(a.cumulativeBalance);
  }
}
