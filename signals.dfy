/**
 * The signal detector: marks a bar +1 when it closes above its EMA right after three
 * bearish bars below the EMA, and -1 in the mirrored case.
 */
module SignalDetector {
  import opened BarData

  /** Every bar of the window closed below its open, and every bar closed below its EMA. */
  predicate FallingBelowAverage(window: seq<Bar>)
    ensures FallingBelowAverage(window) <==> forall k :: 0 <= k < |window| ==> Bearish(window[k])
  {
    (forall k :: 0 <= k < |window| ==> window[k].close < window[k].open) &&
    (forall k :: 0 <= k < |window| ==> window[k].close < window[k].ema)
  }

  /** Every bar of the window closed above its open, and every bar closed above its EMA. */
  predicate RisingAboveAverage(window: seq<Bar>)
    ensures RisingAboveAverage(window) <==> forall k :: 0 <= k < |window| ==> Bullish(window[k])
  {
    (forall k :: 0 <= k < |window| ==> window[k].close > window[k].open) &&
    (forall k :: 0 <= k < |window| ==> window[k].close > window[k].ema)
  }

  /** A single bar that closed below its open and below its EMA. */
  predicate Bearish(b: Bar)
  {
    b.close < b.open && b.close < b.ema
  }

  /** A single bar that closed above its open and above its EMA. */
  predicate Bullish(b: Bar)
  {
    b.close > b.open && b.close > b.ema
  }

  /** The signal written for bar `i`: the long test runs first and the short test may
      overwrite it; the first three bars keep the initial 0. */
  function SignalAt(bars: seq<Bar>, i: nat): (r: int)
    requires i < |bars|
    ensures r in {-1, 0, 1}
    ensures i < 3 ==> r == 0
  {
    if i < 3 then 0
    else
      var window := bars[i - 3..i];
      var afterLong := if FallingBelowAverage(window) && bars[i].close > bars[i].ema then 1 else 0;
      if RisingAboveAverage(window) && bars[i].close < bars[i].ema then -1 else afterLong
  }

  /** The series with its signal column filled in: same length, and each bar differs from
      the input at most in its signal. */
  function Detected(bars: seq<Bar>): (r: seq<Bar>)
    ensures |r| == |bars|
    ensures forall k :: 0 <= k < |bars| ==> r[k].(signal := bars[k].signal) == bars[k]
    ensures forall k :: 0 <= k < |bars| ==> r[k].signal == SignalAt(bars, k)
  {
    seq(|bars|, k requires 0 <= k < |bars| => bars[k].(signal := SignalAt(bars, k)))
  }

  /** No non-empty window both falls below and rises above its average: a bar cannot
      close both below and above its open. */
  lemma PatternsExclusive(window: seq<Bar>)
    requires |window| > 0
    ensures !(FallingBelowAverage(window) && RisingAboveAverage(window))
  {
    if FallingBelowAverage(window) {
      assert window[0].close < window[0].open;
    }
  }

  /** A long signal exactly when the three preceding bars are bearish below the EMA and the
      current bar closes above its EMA; a short signal exactly in the mirrored case; the two
      window patterns never hold for the same window, so the short test never overwrites a
      long mark. */
  lemma SignalPattern(bars: seq<Bar>, i: nat)
    requires i < |bars|
    ensures SignalAt(bars, i) == 1 <==>
      i >= 3 && Bearish(bars[i - 3]) && Bearish(bars[i - 2]) && Bearish(bars[i - 1]) && bars[i].close > bars[i].ema
    ensures SignalAt(bars, i) == -1 <==>
      i >= 3 && Bullish(bars[i - 3]) && Bullish(bars[i - 2]) && Bullish(bars[i - 1]) && bars[i].close < bars[i].ema
    ensures i >= 3 ==> !(FallingBelowAverage(bars[i - 3..i]) && RisingAboveAverage(bars[i - 3..i]))
  {
    if i >= 3 {
      var window := bars[i - 3..i];
      PatternsExclusive(window);
      assert window[0] == bars[i - 3] && window[1] == bars[i - 2] && window[2] == bars[i - 1];
      assert FallingBelowAverage(window) <==> Bearish(bars[i - 3]) && Bearish(bars[i - 2]) && Bearish(bars[i - 1]);
      assert RisingAboveAverage(window) <==> Bullish(bars[i - 3]) && Bullish(bars[i - 2]) && Bullish(bars[i - 1]);
    }
  }

  /** Each mark depends only on the four-bar window ending at its bar. */
  lemma SignalIsLocal(bars: seq<Bar>, i: nat)
    requires 3 <= i < |bars|
    ensures SignalAt(bars, i) == SignalAt(bars[i - 3..i + 1], 3)
  {
    var w := bars[i - 3..i + 1];
    assert w[0..3] == bars[i - 3..i];
    assert w[3] == bars[i];
  }

  /** Annotates the bars in place: first every signal is reset to 0, then each bar from
      index 3 on is tested against the three bars before it. */
  method DetectSignals(a: array<Bar>)
    modifies a
    ensures a[..] == Detected(old(a[..]))
  {
    forall k | 0 <= k < a.Length {
      a[k] := a[k].(signal := 0);
    }
    var i := 3;
    while i < a.Length
      invariant 3 <= i
      invariant forall k :: 0 <= k < a.Length ==>
        a[k] == old(a[k]).(signal := if k < i then SignalAt(old(a[..]), k) else 0)
    {
      var window := a[i - 3..i];
      ghost var before := old(a[..])[i - 3..i];
      assert forall k :: 0 <= k < 3 ==>
        window[k].open == before[k].open && window[k].close == before[k].close && window[k].ema == before[k].ema;
      assert FallingBelowAverage(window) == FallingBelowAverage(before);
      assert RisingAboveAverage(window) == RisingAboveAverage(before);
      if FallingBelowAverage(window) {
        if a[i].close > a[i].ema {
          a[i] := a[i].(signal := 1);
        }
      }
      if RisingAboveAverage(window) {
        if a[i].close < a[i].ema {
          a[i] := a[i].(signal := -1);
        }
      }
      i := i + 1;
    }
  }
}
