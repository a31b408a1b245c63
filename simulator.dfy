/**
 * The trade simulator: a Flat / Long / Short state machine over the bar series. It holds at
 * most one position of one contract, exits at exactly the take-profit or stop price (take
 * profit checked first), optionally ratchets a trailing stop, charges commission and
 * slippage, and records every closed trade with the running balance.
 */
module TradeSimulator {
  import opened Wrappers
  import opened BarData
  import opened Series

  datatype Side = Long | Short
  datatype Reason = TP | SL

  /** The open position. `maxPrice` / `minPrice` track the favourable extreme for the
      trailing stop; both start at the entry close and only the side's own one moves. */
  datatype Position = Position(entryTime: int, entryPrice: real, quantity: int, side: Side,
                               maxPrice: real, minPrice: real)

  /** One ledger row. */
  datatype Trade = Trade(entryTime: int, exitTime: int, side: Side, entryPrice: real,
                         exitPrice: real, quantity: int, pnl: real, reason: Reason,
                         balanceAfter: real, slPrice: real, tpPrice: real)

  datatype Exit = Exit(price: real, reason: Reason)

  /** The simulator's loop variables: the running balance, the open position (if any) and
      the ledger so far. */
  datatype SimState = SimState(balance: real, open: Option<Position>, trades: seq<Trade>)

  /** The first bar index the simulation loop visits. */
  const FirstTradableBar := 4

  /** Take-profit level: `tpTicks` ticks in the position's favour from the entry price. */
  function TakeProfitPrice(c: Config, p: Position): real
  {
    match p.side
    case Long => p.entryPrice + c.tpTicks * c.tickSize
    case Short => p.entryPrice - c.tpTicks * c.tickSize
  }

  /** Initial stop level: `slTicks` ticks against the position from the entry price. */
  function InitialStopPrice(c: Config, p: Position): real
  {
    match p.side
    case Long => p.entryPrice - c.slTicks * c.tickSize
    case Short => p.entryPrice + c.slTicks * c.tickSize
  }

  /** The entry brackets: the take profit lies `tpTicks` ticks beyond the entry price in the
      position's favour and the initial stop `slTicks` ticks against it, so with positive tick
      counts and tick size the entry price lies strictly between the two. */
  lemma Brackets(c: Config, p: Position)
    ensures var tp, sl := TakeProfitPrice(c, p), InitialStopPrice(c, p);
      (if p.side == Long then tp - p.entryPrice else p.entryPrice - tp) == c.tpTicks * c.tickSize &&
      (if p.side == Long then p.entryPrice - sl else sl - p.entryPrice) == c.slTicks * c.tickSize
    ensures var tp, sl := TakeProfitPrice(c, p), InitialStopPrice(c, p);
      c.tpTicks > 0.0 && c.slTicks > 0.0 && c.tickSize > 0.0 ==>
        if p.side == Long then sl < p.entryPrice < tp else tp < p.entryPrice < sl
  {
    if c.tpTicks > 0.0 && c.slTicks > 0.0 && c.tickSize > 0.0 {
      assert c.tpTicks * c.tickSize > 0.0;
      assert c.slTicks * c.tickSize > 0.0;
    }
  }

  /** The position after this bar's trailing-stop bookkeeping: with the trailing stop on,
      the favourable extreme absorbs the bar's high (long) or low (short). */
  function Tracked(c: Config, p: Position, bar: Bar): (q: Position)
    ensures q.entryTime == p.entryTime && q.entryPrice == p.entryPrice
    ensures q.side == p.side && q.quantity == p.quantity
    ensures !c.trailingStop ==> q == p
    ensures c.trailingStop && p.side == Long ==>
      q.maxPrice >= p.maxPrice && q.maxPrice >= bar.high && (q.maxPrice == p.maxPrice || q.maxPrice == bar.high)
    ensures c.trailingStop && p.side == Short ==>
      q.minPrice <= p.minPrice && q.minPrice <= bar.low && (q.minPrice == p.minPrice || q.minPrice == bar.low)
    ensures p.side == Long ==> q == p.(maxPrice := q.maxPrice)
    ensures p.side == Short ==> q == p.(minPrice := q.minPrice)
  {
    if !c.trailingStop then p
    else match p.side
      case Long => p.(maxPrice := RealMax(p.maxPrice, bar.high))
      case Short => p.(minPrice := RealMin(p.minPrice, bar.low))
  }

  /** The stop in force for a (tracked) position: the fixed stop, or, with the trailing
      stop on, the tighter of the fixed stop and the trailing distance from the favourable
      extreme. */
  function StopPrice(c: Config, p: Position): (sl: real)
    ensures !c.trailingStop ==> sl == InitialStopPrice(c, p)
    ensures p.side == Long ==> sl >= InitialStopPrice(c, p)
    ensures p.side == Short ==> sl <= InitialStopPrice(c, p)
    ensures c.trailingStop && p.side == Long ==> sl >= p.maxPrice - c.trailingStopTicks * c.tickSize
    ensures c.trailingStop && p.side == Short ==> sl <= p.minPrice + c.trailingStopTicks * c.tickSize
    ensures c.trailingStop && p.side == Long ==>
      sl == InitialStopPrice(c, p) || sl == p.maxPrice - c.trailingStopTicks * c.tickSize
    ensures c.trailingStop && p.side == Short ==>
      sl == InitialStopPrice(c, p) || sl == p.minPrice + c.trailingStopTicks * c.tickSize
  {
    var fixed := InitialStopPrice(c, p);
    if !c.trailingStop then fixed
    else match p.side
      case Long => RealMax(fixed, p.maxPrice - c.trailingStopTicks * c.tickSize)
      case Short => RealMin(fixed, p.minPrice + c.trailingStopTicks * c.tickSize)
  }

  /** The exit a bar triggers for a (tracked) position, take profit before stop. */
  function ExitAt(c: Config, p: Position, bar: Bar): (r: Option<Exit>)
    ensures r.Some? && r.value.reason == TP ==> r.value.price == TakeProfitPrice(c, p)
    ensures r.Some? && r.value.reason == SL ==> r.value.price == StopPrice(c, p)
    ensures r.Some? && r.value.reason == SL ==>
      if p.side == Long then bar.high < TakeProfitPrice(c, p) else bar.low > TakeProfitPrice(c, p)
  {
    var tp := TakeProfitPrice(c, p);
    var sl := StopPrice(c, p);
    match p.side
    case Long =>
      if bar.high >= tp then Some(Exit(tp, TP))
      else if bar.low <= sl then Some(Exit(sl, SL))
      else None
    case Short =>
      if bar.low <= tp then Some(Exit(tp, TP))
      else if bar.high >= sl then Some(Exit(sl, SL))
      else None
  }

  /** Commission plus slippage on both legs. */
  function RoundTripCost(c: Config): (cost: real)
    ensures c == DefaultConfig ==> cost == 15.0
  {
    c.commissionPerTrade + c.slippageTicks * c.tickValue * 2.0
  }

  /** With non-negative commission, slippage and tick value the round trip costs at least
      the commission. */
  lemma CostCoversCommission(c: Config)
    requires c.commissionPerTrade >= 0.0 && c.slippageTicks >= 0.0 && c.tickValue >= 0.0
    ensures RoundTripCost(c) >= c.commissionPerTrade
  {
    assert c.slippageTicks * c.tickValue >= 0.0;
  }

  /** Profit before costs of `quantity` contracts entered at `entryPrice` and closed at
      `exitPrice`: price move in ticks times tick value, negated for a short. */
  function GrossPnl(c: Config, side: Side, entryPrice: real, exitPrice: real, quantity: int): (g: real)
    requires c.tickSize != 0.0
    ensures exitPrice == entryPrice ==> g == 0.0
    ensures c.tickValue > 0.0 && c.tickSize > 0.0 && quantity > 0 ==>
      (g > 0.0 <==> (if side == Long then exitPrice > entryPrice else exitPrice < entryPrice))
  {
    var d, q := exitPrice - entryPrice, quantity as real;
    ScaledSign(d, q, c.tickValue, c.tickSize);
    var move := d * q * c.tickValue / c.tickSize;
    match side
    case Long => move
    case Short => -move
  }

  /** Profit after costs: the gross profit less the round-trip cost. */
  function NetPnl(c: Config, side: Side, entryPrice: real, exitPrice: real, quantity: int): (pnl: real)
    requires c.tickSize != 0.0
    ensures exitPrice == entryPrice ==> pnl == -RoundTripCost(c)
    ensures c.tickValue > 0.0 && c.tickSize > 0.0 && quantity > 0 ==>
      (pnl > -RoundTripCost(c) <==> (if side == Long then exitPrice > entryPrice else exitPrice < entryPrice))
  {
    GrossPnl(c, side, entryPrice, exitPrice, quantity) - RoundTripCost(c)
  }

  /** Profit of closing `p` at `exitPrice`, after costs. */
  function TradePnl(c: Config, p: Position, exitPrice: real): real
    requires c.tickSize != 0.0
  {
    NetPnl(c, p.side, p.entryPrice, exitPrice, p.quantity)
  }

  /** The entry rule: a non-zero signal on a bar that finds no open position opens one at
      the bar's close (long for +1, short otherwise), unless the quantity is below 1. */
  function Enter(s: SimState, bar: Bar, qty: int): (r: SimState)
    ensures r.balance == s.balance && r.trades == s.trades
    ensures r.open != s.open <==> s.open.None? && bar.signal != 0 && qty >= 1
    ensures r.open != s.open ==>
      r.open.value.entryTime == bar.time && r.open.value.entryPrice == bar.close &&
      r.open.value.maxPrice == bar.close && r.open.value.minPrice == bar.close &&
      r.open.value.quantity == qty && (r.open.value.side == Long <==> bar.signal == 1)
  {
    if bar.signal != 0 && s.open.None? then
      if qty < 1 then s
      else
        var side := if bar.signal == 1 then Long else Short;
        s.(open := Some(Position(bar.time, bar.close, qty, side, bar.close, bar.close)))
    else s
  }

  /** The ledger row for closing `q` on `bar` with exit `e`, from running balance `balance`. */
  function CloseTrade(c: Config, q: Position, bar: Bar, e: Exit, balance: real): (t: Trade)
    requires c.tickSize != 0.0
    ensures t.balanceAfter == balance + t.pnl
    ensures t.pnl == NetPnl(c, t.side, t.entryPrice, t.exitPrice, t.quantity)
    ensures t.entryTime == q.entryTime && t.exitTime == bar.time && t.quantity == q.quantity
    ensures t.side == q.side && t.entryPrice == q.entryPrice
    ensures t.exitPrice == e.price && t.reason == e.reason
    ensures t.slPrice == StopPrice(c, q) && t.tpPrice == TakeProfitPrice(c, q)
  {
    var pnl := TradePnl(c, q, e.price);
    Trade(q.entryTime, bar.time, q.side, q.entryPrice, e.price, q.quantity, pnl,
          e.reason, balance + pnl, StopPrice(c, q), TakeProfitPrice(c, q))
  }

  /** One iteration of the simulation loop: exits are evaluated first; a position that does
      not exit skips the entry rule; after an exit (or when flat) the entry rule runs. */
  function Step(c: Config, s: SimState, bar: Bar): (r: SimState)
    requires c.tickSize != 0.0
    ensures |s.trades| <= |r.trades| <= |s.trades| + 1 && r.trades[..|s.trades|] == s.trades
    ensures |r.trades| > |s.trades| ==>
      s.open.Some? && r.trades[|s.trades|].balanceAfter == r.balance == s.balance + r.trades[|s.trades|].pnl
    ensures |r.trades| == |s.trades| ==> r.balance == s.balance
    ensures s.open.Some? && |r.trades| == |s.trades| ==> r.open == Some(Tracked(c, s.open.value, bar))
  {
    match s.open
    case None => Enter(s, bar, 1)
    case Some(p) =>
      var q := Tracked(c, p, bar);
      match ExitAt(c, q, bar)
      case None => s.(open := Some(q))
      case Some(e) =>
        var t := CloseTrade(c, q, bar, e, s.balance);
        Enter(SimState(t.balanceAfter, None, s.trades + [t]), bar, q.quantity)
  }

  /** The state after the loop has visited bars 4 .. |bars|-1 in order. */
  function Run(c: Config, bars: seq<Bar>): (s: SimState)
    requires c.tickSize != 0.0
    ensures |s.trades| + (if s.open.Some? then 1 else 0) <= (if |bars| > FirstTradableBar then |bars| - FirstTradableBar else 0)
    ensures |bars| > FirstTradableBar ==> |s.trades| <= |bars| - FirstTradableBar - 1
    decreases |bars|
  {
    if |bars| <= FirstTradableBar then SimState(c.startingBalance, None, [])
    else Step(c, Run(c, bars[..|bars| - 1]), bars[|bars| - 1])
  }

  /** The ledger the simulator returns. */
  function Simulate(c: Config, bars: seq<Bar>): (trades: seq<Trade>)
    requires c.tickSize != 0.0
    ensures |bars| <= FirstTradableBar + 1 ==> trades == []
    ensures |bars| > FirstTradableBar + 1 ==> |trades| <= |bars| - FirstTradableBar - 1
  {
    Run(c, bars).trades
  }

  /** The error that aborts a run. */
  datatype SimError = SizingDivisionByZero

  /** The position-sizing arithmetic of every iteration floor-divides by the contract margin
      and by stop ticks × tick value. Its results are never used, but a zero divisor raises. */
  predicate SizingDivisorZero(c: Config)
    ensures SizingDivisorZero(c) <==> c.contractMargin == 0.0 || c.slTicks == 0.0 || c.tickValue == 0.0
  {
    c.contractMargin == 0.0 || c.slTicks * c.tickValue == 0.0
  }

  /** What the simulator returns: the ledger, or the error raised on the first visited bar
      (bar 4) when a sizing divisor is zero. */
  function SimulationOutcome(c: Config, bars: seq<Bar>): (r: Result<seq<Trade>, SimError>)
    requires c.tickSize != 0.0
    ensures r.Err? <==> |bars| > FirstTradableBar && SizingDivisorZero(c)
    ensures r.Ok? ==> r.value == Simulate(c, bars)
  {
    if |bars| > FirstTradableBar && SizingDivisorZero(c) then Err(SizingDivisionByZero)
    else Ok(Simulate(c, bars))
  }

  /** The pnl column of a ledger. */
  function Pnls(trades: seq<Trade>): (r: seq<real>)
    ensures |r| == |trades|
    ensures forall k :: 0 <= k < |trades| ==> r[k] == trades[k].pnl
  {
    seq(|trades|, k requires 0 <= k < |trades| => trades[k].pnl)
  }

  /** Every row's balance is the starting balance plus the pnl of that row and all before it. */
  predicate LedgerBalanced(start: real, trades: seq<Trade>)
  {
    forall k :: 0 <= k < |trades| ==> trades[k].balanceAfter == start + Sum(Pnls(trades[..k + 1]))
  }

  /** What every ledger row satisfies: one contract; take profit at the fixed distance; the
      stop never looser than the fixed stop, and equal to it without trailing; the exit at
      exactly the threshold named by the reason; pnl as the tick arithmetic minus costs. */
  predicate WellFormedTrade(c: Config, t: Trade)
    requires c.tickSize != 0.0
  {
    && t.quantity == 1
    && t.tpPrice == (if t.side == Long then t.entryPrice + c.tpTicks * c.tickSize
                     else t.entryPrice - c.tpTicks * c.tickSize)
    && (t.side == Long ==> t.slPrice >= t.entryPrice - c.slTicks * c.tickSize)
    && (t.side == Short ==> t.slPrice <= t.entryPrice + c.slTicks * c.tickSize)
    && (!c.trailingStop ==> t.slPrice == (if t.side == Long then t.entryPrice - c.slTicks * c.tickSize
                                          else t.entryPrice + c.slTicks * c.tickSize))
    && (t.reason == TP ==> t.exitPrice == t.tpPrice)
    && (t.reason == SL ==> t.exitPrice == t.slPrice)
    && t.pnl == NetPnl(c, t.side, t.entryPrice, t.exitPrice, t.quantity)
  }

  /** The loop invariant of the simulation. */
  predicate Consistent(c: Config, s: SimState)
    requires c.tickSize != 0.0
  {
    && s.balance == c.startingBalance + Sum(Pnls(s.trades))
    && LedgerBalanced(c.startingBalance, s.trades)
    && (forall k :: 0 <= k < |s.trades| ==> WellFormedTrade(c, s.trades[k]))
    && (s.open.Some? ==> s.open.value.quantity == 1)
  }

  /** Exit rule, both directions: a long leaves at exactly the take-profit price when the
      high reaches it, otherwise at exactly the stop when the low reaches it, otherwise it
      stays open; a short mirrors this with the low and the high. */
  lemma ExitRule(c: Config, p: Position, bar: Bar)
    ensures p.side == Long ==>
      (ExitAt(c, p, bar) == Some(Exit(TakeProfitPrice(c, p), TP)) <==> bar.high >= TakeProfitPrice(c, p)) &&
      (ExitAt(c, p, bar) == Some(Exit(StopPrice(c, p), SL)) <==>
         bar.high < TakeProfitPrice(c, p) && bar.low <= StopPrice(c, p)) &&
      (ExitAt(c, p, bar).None? <==> bar.high < TakeProfitPrice(c, p) && bar.low > StopPrice(c, p))
    ensures p.side == Short ==>
      (ExitAt(c, p, bar) == Some(Exit(TakeProfitPrice(c, p), TP)) <==> bar.low <= TakeProfitPrice(c, p)) &&
      (ExitAt(c, p, bar) == Some(Exit(StopPrice(c, p), SL)) <==>
         bar.low > TakeProfitPrice(c, p) && bar.high >= StopPrice(c, p)) &&
      (ExitAt(c, p, bar).None? <==> bar.low > TakeProfitPrice(c, p) && bar.high < StopPrice(c, p))
  {
  }

  /** The trailing stop only tightens: across one bar a long's stop never drops and a
      short's never climbs. */
  lemma TrailingStopRatchets(c: Config, p: Position, bar: Bar)
    ensures var q := Tracked(c, p, bar);
      && (p.side == Long ==> StopPrice(c, q) >= StopPrice(c, p))
      && (p.side == Short ==> StopPrice(c, q) <= StopPrice(c, p))
  {
  }

  /** One bar of the state machine: a row is added exactly when a position was open and its
      tracked form exits on this bar, and that row is the closing of the tracked position
      at the exit; when flat, or after an exit, a non-zero signal opens one contract at the
      bar's close. */
  lemma StepRule(c: Config, s: SimState, bar: Bar)
    requires c.tickSize != 0.0
    requires s.open.Some? ==> s.open.value.quantity == 1
    ensures var s' := Step(c, s, bar);
      && (|s'.trades| > |s.trades| <==>
            s.open.Some? && ExitAt(c, Tracked(c, s.open.value, bar), bar).Some?)
      && (|s'.trades| > |s.trades| ==>
            var q := Tracked(c, s.open.value, bar);
            s'.trades[|s.trades|] == CloseTrade(c, q, bar, ExitAt(c, q, bar).value, s.balance))
      && (s.open.None? || |s'.trades| > |s.trades| ==>
            s'.open == (if bar.signal == 0 then None
                        else Some(Position(bar.time, bar.close, 1, if bar.signal == 1 then Long else Short,
                                           bar.close, bar.close))))
  {
  }

  /** A long or short that does not exit on a bar keeps its entry, and its stop does not
      loosen from that bar to the next. */
  lemma StopNeverLoosens(c: Config, s: SimState, bar: Bar)
    requires c.tickSize != 0.0
    requires s.open.Some?
    requires |Step(c, s, bar).trades| == |s.trades|
    ensures var p := s.open.value;
      && Step(c, s, bar).open.Some?
      && var q := Step(c, s, bar).open.value;
      && q.entryTime == p.entryTime && q.entryPrice == p.entryPrice && q.side == p.side
      && (p.side == Long ==> StopPrice(c, q) >= StopPrice(c, p))
      && (p.side == Short ==> StopPrice(c, q) <= StopPrice(c, p))
  {
    TrailingStopRatchets(c, s.open.value, bar);
  }

  /** Appending a row whose balance is the old running total plus its pnl keeps the ledger
      balanced and adds that pnl to the total. */
  lemma AppendBalanced(start: real, trades: seq<Trade>, t: Trade)
    requires LedgerBalanced(start, trades)
    requires t.balanceAfter == start + Sum(Pnls(trades)) + t.pnl
    ensures LedgerBalanced(start, trades + [t])
    ensures Sum(Pnls(trades + [t])) == Sum(Pnls(trades)) + t.pnl
  {
    var ts := trades + [t];
    assert Pnls(ts) == Pnls(trades) + [t.pnl];
    SumAppend(Pnls(trades), t.pnl);
    forall k | 0 <= k < |ts|
      ensures ts[k].balanceAfter == start + Sum(Pnls(ts[..k + 1]))
    {
      if k < |trades| {
        assert ts[..k + 1] == trades[..k + 1];
      } else {
        assert ts[..k + 1] == ts;
      }
    }
  }

  /** A row closed from a one-contract position is well formed. */
  lemma CloseTradeWellFormed(c: Config, p: Position, bar: Bar, balance: real)
    requires c.tickSize != 0.0
    requires p.quantity == 1
    requires ExitAt(c, Tracked(c, p, bar), bar).Some?
    ensures var q := Tracked(c, p, bar);
      WellFormedTrade(c, CloseTrade(c, q, bar, ExitAt(c, q, bar).value, balance))
  {
    TrailingStopRatchets(c, p, bar);
  }

  /** One bar keeps the simulation invariant. */
  lemma StepConsistent(c: Config, s: SimState, bar: Bar)
    requires c.tickSize != 0.0
    requires Consistent(c, s)
    ensures Consistent(c, Step(c, s, bar))
  {
    if s.open.Some? {
      var p := s.open.value;
      var q := Tracked(c, p, bar);
      if ExitAt(c, q, bar).Some? {
        var t := CloseTrade(c, q, bar, ExitAt(c, q, bar).value, s.balance);
        AppendBalanced(c.startingBalance, s.trades, t);
        CloseTradeWellFormed(c, p, bar, s.balance);
      }
    }
  }

  /** The simulation invariant holds after every prefix of the series: the balance is the
      starting balance plus all pnl, every row's balance is the running total, every row is
      well formed, and the open position is always one contract. */
  lemma {:induction false} RunConsistent(c: Config, bars: seq<Bar>)
    requires c.tickSize != 0.0
    ensures Consistent(c, Run(c, bars))
    decreases |bars|
  {
    if |bars| > FirstTradableBar {
      RunConsistent(c, bars[..|bars| - 1]);
      StepConsistent(c, Run(c, bars[..|bars| - 1]), bars[|bars| - 1]);
    }
  }

  /** Ledger accounting: every row carries the running balance, the last row's balance is
      the starting balance plus the sum of all pnl, and every row is well formed. */
  lemma LedgerAccounting(c: Config, bars: seq<Bar>)
    requires c.tickSize != 0.0
    ensures var trades := Simulate(c, bars);
      && LedgerBalanced(c.startingBalance, trades)
      && (trades != [] ==> trades[|trades| - 1].balanceAfter == c.startingBalance + Sum(Pnls(trades)))
      && forall k :: 0 <= k < |trades| ==> WellFormedTrade(c, trades[k])
  {
    RunConsistent(c, bars);
    var trades := Simulate(c, bars);
    if trades != [] {
      assert trades[..|trades|] == trades;
    }
  }

  /** Ordering of the ledger for a time-ordered series: each trade closes no earlier than
      it opened, and no earlier trade closes after a later one opens; an open position
      opened no earlier than every recorded exit; `bound` is the last visited bar's time. */
  predicate Chronological(s: SimState, bound: int)
  {
    && (forall k :: 0 <= k < |s.trades| ==> s.trades[k].entryTime <= s.trades[k].exitTime <= bound)
    && (forall j, k :: 0 <= j < k < |s.trades| ==> s.trades[j].exitTime <= s.trades[k].entryTime)
    && (s.open.Some? ==>
          s.open.value.entryTime <= bound &&
          forall k :: 0 <= k < |s.trades| ==> s.trades[k].exitTime <= s.open.value.entryTime)
  }

  lemma StepChronological(c: Config, s: SimState, bar: Bar, bound: int)
    requires c.tickSize != 0.0
    requires Chronological(s, bound) && bound <= bar.time
    ensures Chronological(Step(c, s, bar), bar.time)
  {
  }

  lemma {:induction false} RunChronological(c: Config, bars: seq<Bar>)
    requires c.tickSize != 0.0
    requires TimeOrdered(bars)
    requires |bars| >= FirstTradableBar
    ensures Chronological(Run(c, bars), bars[|bars| - 1].time)
    decreases |bars|
  {
    if |bars| > FirstTradableBar {
      var prefix := bars[..|bars| - 1];
      RunChronological(c, prefix);
      StepChronological(c, Run(c, prefix), bars[|bars| - 1], prefix[|prefix| - 1].time);
    }
  }

  /** At most one position at a time: on a time-ordered series the ledger's holding
      intervals follow each other without overlapping. */
  lemma TradesDoNotOverlap(c: Config, bars: seq<Bar>)
    requires c.tickSize != 0.0
    requires TimeOrdered(bars)
    ensures var trades := Simulate(c, bars);
      && (forall k :: 0 <= k < |trades| ==> trades[k].entryTime <= trades[k].exitTime)
      && (forall j, k :: 0 <= j < k < |trades| ==> trades[j].exitTime <= trades[k].entryTime)
  {
    if |bars| >= FirstTradableBar {
      RunChronological(c, bars);
    }
  }

  /** The first four bars never trade: the simulation depends only on bars 4 onward (and
      the length of the series), so in particular a signal on bar 3 is never acted on. */
  lemma {:induction false} EarlyBarsIgnored(c: Config, a: seq<Bar>, b: seq<Bar>)
    requires c.tickSize != 0.0
    requires |a| == |b|
    requires |a| >= FirstTradableBar ==> a[FirstTradableBar..] == b[FirstTradableBar..]
    ensures Run(c, a) == Run(c, b)
    decreases |a|
  {
    if |a| > FirstTradableBar {
      var n := |a|;
      SuffixesAgree(a, b, FirstTradableBar);
      EarlyBarsIgnored(c, a[..n - 1], b[..n - 1]);
      assert Run(c, a) == Step(c, Run(c, a[..n - 1]), a[n - 1]);
      assert Run(c, b) == Step(c, Run(c, b[..n - 1]), b[n - 1]);
    }
  }

  /** Two equally long series that agree from `from` on agree in their last element, and
      their prefixes without it agree from `from` on too. */
  lemma SuffixesAgree(a: seq<Bar>, b: seq<Bar>, from: nat)
    requires |a| == |b| > from
    requires a[from..] == b[from..]
    ensures a[|a| - 1] == b[|b| - 1]
    ensures a[..|a| - 1][from..] == b[..|b| - 1][from..]
  {
    var n := |a|;
    assert a[n - 1] == a[from..][n - 1 - from];
    assert b[n - 1] == b[from..][n - 1 - from];
    assert a[..n - 1][from..] == a[from..][..n - 1 - from];
    assert b[..n - 1][from..] == b[from..][..n - 1 - from];
  }

  /** With the default configuration a long opened at P leaves at exactly P + 5 with
      reason TP on the first later bar whose high reaches P + 5, booking 85 after costs. */
  lemma DefaultTakeProfitScenario(s: SimState, bar: Bar, entry: real)
    requires s.open.Some? && s.open.value.side == Long && s.open.value.quantity == 1
    requires s.open.value.entryPrice == entry
    requires bar.high >= entry + 5.0
    ensures var s' := Step(DefaultConfig, s, bar);
      && |s'.trades| == |s.trades| + 1
      && s'.trades[|s.trades|].exitPrice == entry + 5.0
      && s'.trades[|s.trades|].reason == TP
      && s'.trades[|s.trades|].pnl == 85.0
  {
  }

  lemma RunUnfold(c: Config, bars: seq<Bar>, i: nat)
    requires c.tickSize != 0.0
    requires FirstTradableBar <= i < |bars|
    ensures Run(c, bars[..i + 1]) == Step(c, Run(c, bars[..i]), bars[i])
  {
    assert bars[..i + 1][..i] == bars[..i];
  }

  /** The exit block of one bar for an open position: the trailing-stop bookkeeping (which
      overwrites the position's favourable extreme), the take-profit and stop prices, and
      the exit test, take profit first. */
  method CheckExit(c: Config, p: Position, row: Bar)
    returns (tracked: Position, tpPrice: real, slPrice: real, exit: Option<Exit>)
    ensures tracked == Tracked(c, p, row)
    ensures tpPrice == TakeProfitPrice(c, tracked) && slPrice == StopPrice(c, tracked)
    ensures exit == ExitAt(c, tracked, row)
  {
    if p.side == Long {
      tracked, tpPrice, slPrice, exit := CheckLongExit(c, p, row);
    } else {
      tracked, tpPrice, slPrice, exit := CheckShortExit(c, p, row);
    }
  }

  /** The long branch: the high ratchets the tracked maximum, the stop follows it up, and
      the high is tested against the take profit before the low against the stop. */
  method CheckLongExit(c: Config, p: Position, row: Bar)
    returns (tracked: Position, tpPrice: real, slPrice: real, exit: Option<Exit>)
    requires p.side == Long
    ensures tracked == Tracked(c, p, row)
    ensures tpPrice == TakeProfitPrice(c, tracked) && slPrice == StopPrice(c, tracked)
    ensures exit == ExitAt(c, tracked, row)
  {
    tracked := p;
    tpPrice := p.entryPrice + c.tpTicks * c.tickSize;
    slPrice := p.entryPrice - c.slTicks * c.tickSize;
    if c.trailingStop {
      var maxPrice := RealMax(p.maxPrice, row.high);
      var newSl := maxPrice - c.trailingStopTicks * c.tickSize;
      slPrice := RealMax(slPrice, newSl);
      tracked := p.(maxPrice := maxPrice);
    }
    assert tracked == Tracked(c, p, row);
    assert tpPrice == TakeProfitPrice(c, tracked) && slPrice == StopPrice(c, tracked);
    if row.high >= tpPrice {
      exit := Some(Exit(tpPrice, TP));
    } else if row.low <= slPrice {
      exit := Some(Exit(slPrice, SL));
    } else {
      exit := None;
    }
  }

  /** The short branch: the low ratchets the tracked minimum, the stop follows it down, and
      the low is tested against the take profit before the high against the stop. */
  method CheckShortExit(c: Config, p: Position, row: Bar)
    returns (tracked: Position, tpPrice: real, slPrice: real, exit: Option<Exit>)
    requires p.side == Short
    ensures tracked == Tracked(c, p, row)
    ensures tpPrice == TakeProfitPrice(c, tracked) && slPrice == StopPrice(c, tracked)
    ensures exit == ExitAt(c, tracked, row)
  {
    tracked := p;
    tpPrice := p.entryPrice - c.tpTicks * c.tickSize;
    slPrice := p.entryPrice + c.slTicks * c.tickSize;
    if c.trailingStop {
      var minPrice := RealMin(p.minPrice, row.low);
      var newSl := minPrice + c.trailingStopTicks * c.tickSize;
      slPrice := RealMin(slPrice, newSl);
      tracked := p.(minPrice := minPrice);
    }
    assert tracked == Tracked(c, p, row);
    assert tpPrice == TakeProfitPrice(c, tracked) && slPrice == StopPrice(c, tracked);
    if row.low <= tpPrice {
      exit := Some(Exit(tpPrice, TP));
    } else if row.high >= slPrice {
      exit := Some(Exit(slPrice, SL));
    } else {
      exit := None;
    }
  }

  /** The accounting of one exit: pnl from the price move in ticks (negated for a short),
      less commission and slippage on both legs, added to the balance; returns the ledger
      row carrying the new balance. */
  method RecordExit(c: Config, p: Position, row: Bar, exit: Exit, tpPrice: real, slPrice: real,
                    balance: real) returns (t: Trade)
    requires c.tickSize != 0.0
    requires tpPrice == TakeProfitPrice(c, p) && slPrice == StopPrice(c, p)
    ensures t == CloseTrade(c, p, row, exit, balance)
    ensures t.balanceAfter == balance + t.pnl
  {
    var qty := p.quantity;
    var pnl := (exit.price - p.entryPrice) * qty as real * c.tickValue / c.tickSize;
    if p.side == Short {
      pnl := -pnl;
    }
    var totalCost := c.commissionPerTrade + c.slippageTicks * c.tickValue * 2.0;
    pnl := pnl - totalCost;
    var newBalance := balance + pnl;
    t := Trade(p.entryTime, row.time, p.side, p.entryPrice, exit.price, qty, pnl,
               exit.reason, newBalance, slPrice, tpPrice);
  }

  /** The simulation loop over bars 4 onward. A position that does not exit is kept with its
      updated favourable extreme and the rest of the bar is skipped (`continue`); after an
      exit, or when flat, a non-zero signal opens one contract at the bar's close. */
  method SimulateTrades(c: Config, bars: seq<Bar>) returns (result: Result<seq<Trade>, SimError>)
    requires c.tickSize != 0.0
    ensures result == SimulationOutcome(c, bars)
    ensures result.Ok? ==> LedgerBalanced(c.startingBalance, result.value)
    ensures result.Ok? ==> forall k :: 0 <= k < |result.value| ==> WellFormedTrade(c, result.value[k])
  {
    var balance := c.startingBalance;
    var openTrade: Option<Position> := None;
    var trades := [];
    var i := FirstTradableBar;
    while i < |bars|
      invariant FirstTradableBar <= i
      invariant i <= |bars| ==> SimState(balance, openTrade, trades) == Run(c, bars[..i])
      invariant i > |bars| ==> i == FirstTradableBar && SimState(balance, openTrade, trades) == Run(c, bars)
      invariant SizingDivisorZero(c) ==> i == FirstTradableBar
    {
      RunUnfold(c, bars, i);
      var row := bars[i];
      // Position sizing floor-divides the balance by the margin and the risk budget by the
      // stop's value; the counts are never used, but a zero divisor raises.
      if SizingDivisorZero(c) {
        return Err(SizingDivisionByZero);
      }
      var qty := 1;
      if openTrade.Some? {
        var p, tpPrice, slPrice, exit := CheckExit(c, openTrade.value, row);
        if exit.None? {
          openTrade := Some(p);
          i := i + 1;
          continue;
        }
        qty := p.quantity;
        var t := RecordExit(c, p, row, exit.value, tpPrice, slPrice, balance);
        balance := t.balanceAfter;
        trades := trades + [t];
        openTrade := None;
      }
      if row.signal != 0 && openTrade.None? {
        if qty < 1 {
          i := i + 1;
          continue;
        }
        openTrade := Some(Position(row.time, row.close, qty, if row.signal == 1 then Long else Short,
                                   row.close, row.close));
      }
      i := i + 1;
    }
    if i == |bars| {
      assert bars[..i] == bars;
    }
    LedgerAccounting(c, bars);
    result := Ok(trades);
  }
}
