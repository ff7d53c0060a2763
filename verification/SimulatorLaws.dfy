/** What every simulation keeps, whatever the strategy: no cash appears or disappears, trades follow
    one another in time, and a bracket bounds what a position can lose. */
module SimulatorLaws {
  import opened Wrappers
  import opened Simulator

  // ----- cash

  function Realised(trades: seq<Trade>): real {
    if trades == [] then 0.0 else Realised(trades[..|trades| - 1]) + trades[|trades| - 1].pnl
  }

  function CostOf(position: Option<Holding>): real {
    if position.Some? then Value(position.value.qty, position.value.entryPrice) else 0.0
  }

  /** cash = starting cash + realised pnl - cost of the open position. */
  ghost predicate Books(s: Sim, cfg: Setup) {
    s.cash == cfg.budget + Realised(s.trades) - CostOf(s.position)
  }

  lemma CloseKeepsBooks(s: Sim, i: nat, price: real, reason: Reason, cfg: Setup)
    requires Books(s, cfg) && s.position.Some?
    ensures Books(Close(s, i, price, reason), cfg)
  {
    var p := s.position.value;
    var more := Close(s, i, price, reason).trades;
    assert more[..|more| - 1] == s.trades;
    assert Value(p.qty, price - p.entryPrice) == Value(p.qty, price) - Value(p.qty, p.entryPrice);
  }

  lemma FillKeepsBooks(s: Sim, i: nat, bar: Bar, cfg: Setup)
    requires Books(s, cfg)
    ensures Books(FillPending(s, i, bar, cfg), cfg)
  {
    if s.pending == Sell && s.position.Some? {
      CloseKeepsBooks(s, i, SellFill(bar.open, cfg), Signal, cfg);
    }
  }

  lemma BracketKeepsBooks(s: Sim, i: nat, bar: Bar, cfg: Setup)
    requires Books(s, cfg)
    ensures Books(CheckBracket(s, i, bar, cfg), cfg)
  {
    if s.position.Some? {
      var p := s.position.value;
      CloseKeepsBooks(s, i, SellFill(p.stopLoss, cfg), StopLoss, cfg);
      CloseKeepsBooks(s, i, SellFill(p.takeProfit, cfg), TakeProfit, cfg);
    }
  }

  /** Cash is conserved at every bar. */
  lemma {:induction false} CashConserved(bars: seq<Bar>, cfg: Setup)
    ensures Books(After(bars, cfg), cfg)
  {
    if bars != [] {
      var n := |bars| - 1;
      CashConserved(bars[..n], cfg);
      FillKeepsBooks(After(bars[..n], cfg), n, bars[n], cfg);
      BracketKeepsBooks(FillPending(After(bars[..n], cfg), n, bars[n], cfg), n, bars[n], cfg);
    }
  }

  /** The last equity point is the starting cash plus everything the trades made. */
  ghost predicate Settled(r: Result) {
    if r.equity == [] then r.trades == [] else r.equity[|r.equity| - 1] == r.startingCash + Realised(r.trades)
  }

  lemma FinalEquity(bars: seq<Bar>, cfg: Setup)
    ensures var r := Simulation(bars, cfg); r.startingCash == cfg.budget && |r.equity| == |bars| && Settled(r)
  {
    OnePointPerBar(bars, cfg);
    CashConserved(bars, cfg);
    var s := After(bars, cfg);
    if s.position.Some? && bars != [] {
      CloseKeepsBooks(s, |bars| - 1, SellFill(bars[|bars| - 1].close, cfg), EndOfData, cfg);
    }
  }

  // ----- time

  ghost predicate Ordered(trades: seq<Trade>, n: nat) {
    && (forall k :: 0 <= k < |trades| ==> trades[k].entry <= trades[k].exit < n)
    && (forall k, l :: 0 <= k < l < |trades| ==> trades[k].exit < trades[l].entry)
  }

  /** Up to bar `n` trades follow one another and the open position follows them all. */
  ghost predicate Timeline(s: Sim, n: nat) {
    && Ordered(s.trades, n)
    && (s.position.Some? ==> s.position.value.entry < n && forall k :: 0 <= k < |s.trades| ==> s.trades[k].exit < s.position.value.entry)
  }

  lemma CloseKeepsTimeline(s: Sim, i: nat, price: real, reason: Reason)
    requires Timeline(s, i + 1) && s.position.Some?
    ensures Timeline(Close(s, i, price, reason), i + 1)
  {
  }

  lemma FillKeepsTimeline(s: Sim, i: nat, bar: Bar, cfg: Setup)
    requires Timeline(s, i)
    ensures Timeline(FillPending(s, i, bar, cfg), i + 1)
  {
    if s.pending == Sell && s.position.Some? {
      CloseKeepsTimeline(s, i, SellFill(bar.open, cfg), Signal);
    }
  }

  lemma BracketKeepsTimeline(s: Sim, i: nat, bar: Bar, cfg: Setup)
    requires Timeline(s, i + 1)
    ensures Timeline(CheckBracket(s, i, bar, cfg), i + 1)
  {
    if s.position.Some? {
      CloseKeepsTimeline(s, i, SellFill(s.position.value.stopLoss, cfg), StopLoss);
      CloseKeepsTimeline(s, i, SellFill(s.position.value.takeProfit, cfg), TakeProfit);
    }
  }

  lemma {:induction false} TimelineKept(bars: seq<Bar>, cfg: Setup)
    ensures Timeline(After(bars, cfg), |bars|)
  {
    if bars != [] {
      var n := |bars| - 1;
      TimelineKept(bars[..n], cfg);
      FillKeepsTimeline(After(bars[..n], cfg), n, bars[n], cfg);
      BracketKeepsTimeline(FillPending(After(bars[..n], cfg), n, bars[n], cfg), n, bars[n], cfg);
    }
  }

  /** The trades of a simulation occupy disjoint, increasing stretches of its bars. */
  lemma TradesDisjoint(bars: seq<Bar>, cfg: Setup)
    ensures Ordered(Simulation(bars, cfg).trades, |bars|)
  {
    OnePointPerBar(bars, cfg);
    TimelineKept(bars, cfg);
    var s := After(bars, cfg);
    if s.position.Some? && bars != [] {
      CloseKeepsTimeline(s, |bars| - 1, SellFill(bars[|bars| - 1].close, cfg), EndOfData);
    }
  }

  // ----- exposure

  predicate Covers(t: Trade, bar: nat) {
    t.entry <= bar <= t.exit
  }

  predicate IsCovered(trades: seq<Trade>, bar: nat) {
    exists k :: 0 <= k < |trades| && Covers(trades[k], bar)
  }

  function CoveredBars(trades: seq<Trade>, n: nat): set<nat> {
    set b: nat | b < n && IsCovered(trades, b)
  }

  function Stretch(lo: nat, hi: nat): (r: set<nat>)
    requires lo <= hi
    ensures |r| == hi - lo
    ensures forall b: nat :: b in r <==> lo <= b < hi
  {
    if lo == hi then {} else Stretch(lo, hi - 1) + {hi - 1}
  }

  /** The sum the source's loop accumulates. */
  function Covered(trades: seq<Trade>): int {
    if trades == [] then 0
    else Covered(trades[..|trades| - 1]) + (trades[|trades| - 1].exit - trades[|trades| - 1].entry + 1)
  }

  lemma OneMoreCovered(trades: seq<Trade>, b: nat)
    requires trades != []
    ensures IsCovered(trades, b) <==> IsCovered(trades[..|trades| - 1], b) || Covers(trades[|trades| - 1], b)
  {
    var rest := trades[..|trades| - 1];
    if k :| 0 <= k < |rest| && Covers(rest[k], b) {
      assert Covers(trades[k], b);
    }
  }

  lemma {:induction false} CoveredIsCount(trades: seq<Trade>, n: nat)
    requires Ordered(trades, n)
    ensures Covered(trades) == |CoveredBars(trades, n)|
  {
    if trades == [] {
      assert CoveredBars(trades, n) == {};
    } else {
      var rest, last := trades[..|trades| - 1], trades[|trades| - 1];
      CoveredIsCount(rest, n);
      var before, during := CoveredBars(rest, n), Stretch(last.entry, last.exit + 1);
      forall b: nat ensures b in CoveredBars(trades, n) <==> b in before + during {
        OneMoreCovered(trades, b);
      }
      assert CoveredBars(trades, n) == before + during;
      assert before !! during;
    }
  }

  lemma CoveredAtMost(trades: seq<Trade>, n: nat)
    requires Ordered(trades, n)
    ensures Covered(trades) <= n
  {
    CoveredIsCount(trades, n);
    assert CoveredBars(trades, n) <= Stretch(0, n);
    SubsetSmaller(CoveredBars(trades, n), Stretch(0, n));
  }

  lemma SubsetSmaller(small: set<nat>, large: set<nat>)
    requires small <= large
    ensures |small| <= |large|
  {
    assert large == small + (large - small);
  }

  /** The fraction of bars with a position: on a simulation's own trades the clamp never fires. */
  method Exposure(r: Result) returns (exposure: real)
    ensures r.equity == [] ==> exposure == 0.0
    ensures r.equity != [] && Ordered(r.trades, |r.equity|)
      ==> exposure == |CoveredBars(r.trades, |r.equity|)| as real / |r.equity| as real
  {
    if r.equity == [] {
      return 0.0;
    }
    var n := |r.equity|;
    var covered := 0;
    var k := 0;
    while k < |r.trades|
      invariant 0 <= k <= |r.trades|
      invariant covered == Covered(r.trades[..k])
    {
      assert r.trades[..k + 1][..k] == r.trades[..k];
      covered := covered + (r.trades[k].exit - r.trades[k].entry) + 1;
      k := k + 1;
    }
    assert r.trades[..k] == r.trades;
    if Ordered(r.trades, n) {
      CoveredIsCount(r.trades, n);
      CoveredAtMost(r.trades, n);
    }
    exposure := (if covered < n then covered else n) as real / n as real;
  }

  /** A position is open during bar `b`: at its start, or from its open on. */
  ghost predicate HeldDuring(bars: seq<Bar>, cfg: Setup, b: nat)
    requires b < |bars|
  {
    After(bars[..b], cfg).position.Some? || FillPending(After(bars[..b], cfg), b, bars[b], cfg).position.Some?
  }

  ghost predicate Accounted(s: Sim, b: nat) {
    || IsCovered(s.trades, b)
    || (s.position.Some? && s.position.value.entry <= b)
  }

  lemma CloseAccounts(s: Sim, i: nat, price: real, reason: Reason, b: nat)
    requires s.position.Some? && b <= i
    ensures Accounted(s, b) <==> Accounted(Close(s, i, price, reason), b)
  {
    var t := Close(s, i, price, reason);
    assert t.trades[..|s.trades|] == s.trades;
    if Accounted(s, b) {
      if k :| 0 <= k < |s.trades| && Covers(s.trades[k], b) {
        assert Covers(t.trades[k], b);
      } else {
        assert Covers(t.trades[|s.trades|], b);
      }
    }
  }

  lemma FillAccounts(s: Sim, i: nat, bar: Bar, cfg: Setup, b: nat)
    requires Timeline(s, i) && b <= i
    ensures var t := FillPending(s, i, bar, cfg);
      Accounted(t, b) <==> if b < i then Accounted(s, b) else s.position.Some? || t.position.Some?
  {
    if s.pending == Sell && s.position.Some? {
      CloseAccounts(s, i, SellFill(bar.open, cfg), Signal, b);
    }
  }

  lemma BracketAccounts(s: Sim, i: nat, bar: Bar, cfg: Setup, b: nat)
    requires b <= i
    ensures Accounted(CheckBracket(s, i, bar, cfg), b) <==> Accounted(s, b)
  {
    if s.position.Some? {
      CloseAccounts(s, i, SellFill(s.position.value.stopLoss, cfg), StopLoss, b);
      CloseAccounts(s, i, SellFill(s.position.value.takeProfit, cfg), TakeProfit, b);
    }
  }

  lemma {:induction false} HeldIsAccounted(bars: seq<Bar>, cfg: Setup, b: nat)
    requires b < |bars|
    ensures HeldDuring(bars, cfg, b) <==> Accounted(After(bars, cfg), b)
    decreases |bars|
  {
    var n := |bars| - 1;
    var s := After(bars[..n], cfg);
    TimelineKept(bars[..n], cfg);
    FillAccounts(s, n, bars[n], cfg, b);
    BracketAccounts(FillPending(s, n, bars[n], cfg), n, bars[n], cfg, b);
    if b < n {
      assert bars[..n][..b] == bars[..b];
      HeldIsAccounted(bars[..n], cfg, b);
    }
  }

  /** The bars that exposure counts are exactly those during which a position was open. */
  lemma ExposureIsTimeHeld(bars: seq<Bar>, cfg: Setup)
    ensures forall b: nat :: b < |bars| ==> (HeldDuring(bars, cfg, b) <==> b in CoveredBars(Simulation(bars, cfg).trades, |bars|))
  {
    OnePointPerBar(bars, cfg);
    var s, r := After(bars, cfg), Simulation(bars, cfg);
    forall b: nat | b < |bars| ensures HeldDuring(bars, cfg, b) <==> b in CoveredBars(r.trades, |bars|) {
      HeldIsAccounted(bars, cfg, b);
      if s.position.Some? {
        CloseAccounts(s, |bars| - 1, SellFill(bars[|bars| - 1].close, cfg), EndOfData, b);
      }
    }
  }

  // ----- losses

  /** Prices that make sense: positive opens, and a close that is not below the bar's low. */
  ghost predicate Sane(bars: seq<Bar>) {
    forall k :: 0 <= k < |bars| ==> bars[k].open > 0.0 && bars[k].low <= bars[k].close
  }

  ghost predicate SaneSetup(cfg: Setup) {
    0.0 <= cfg.slippage <= 1.0 && cfg.slP <= 1.0 && cfg.slP <= cfg.tpP
  }

  /** A position bought within the budget, with its bracket off its entry price. */
  ghost predicate Bought(p: Holding, cfg: Setup) {
    && p.qty > 0.0 && p.entryPrice > 0.0 && Value(p.qty, p.entryPrice) <= cfg.budget
    && p.stopLoss == Level(p.entryPrice, cfg.slP) && p.takeProfit == Level(p.entryPrice, cfg.tpP)
  }

  function WorstLoss(cfg: Setup): real {
    cfg.budget * (1.0 - cfg.slP * (1.0 - cfg.slippage))
  }

  ghost predicate LossBounded(t: Trade, cfg: Setup) {
    t.reason != Signal ==> t.pnl >= -WorstLoss(cfg)
  }

  ghost predicate Bounded(s: Sim, cfg: Setup) {
    && (s.position.Some? ==> Bought(s.position.value, cfg))
    && (forall k :: 0 <= k < |s.trades| ==> LossBounded(s.trades[k], cfg))
  }

  lemma ScaleUp(x: real, y: real, z: real)
    requires x <= y && z >= 0.0
    ensures x * z <= y * z
  {
    assert (y - x) * z >= 0.0;
  }

  lemma BuyWithinBudget(cfg: Setup, price: real)
    requires price > 0.0
    ensures Value(QtyFor(cfg, price), price) <= cfg.budget
  {
    var shares := cfg.budget / price;
    assert shares * price == cfg.budget;
    ScaleUp(shares.Floor as real, shares, price);
  }

  /** Selling at or above the stop level, less slippage, keeps the loss within bounds. */
  lemma ExitBounded(p: Holding, cfg: Setup, level: real)
    requires SaneSetup(cfg) && Bought(p, cfg) && level >= p.stopLoss
    ensures Value(p.qty, SellFill(level, cfg) - p.entryPrice) >= -WorstLoss(cfg)
  {
    var keep := 1.0 - cfg.slippage;
    var lost := 1.0 - cfg.slP * keep;
    ScaleUp(cfg.slP, 1.0, keep);
    ScaleUp(p.stopLoss, level, keep);
    assert p.stopLoss * keep - p.entryPrice == -p.entryPrice * lost;
    ScaleUp(-p.entryPrice * lost, SellFill(level, cfg) - p.entryPrice, p.qty);
    ScaleUp(Value(p.qty, p.entryPrice), cfg.budget, lost);
    assert -p.entryPrice * lost * p.qty == -(Value(p.qty, p.entryPrice) * lost);
  }

  lemma EnterBounded(s: Sim, i: nat, bar: Bar, cfg: Setup)
    requires SaneSetup(cfg) && bar.open > 0.0 && Bounded(s, cfg)
    ensures BuyFill(bar, cfg) > 0.0 && Bounded(Enter(s, i, BuyFill(bar, cfg), cfg), cfg)
  {
    BuyFillPositive(bar, cfg);
    BuyWithinBudget(cfg, BuyFill(bar, cfg));
  }

  lemma BuyFillPositive(bar: Bar, cfg: Setup)
    requires SaneSetup(cfg) && bar.open > 0.0
    ensures BuyFill(bar, cfg) > 0.0
  {
  }

  lemma SignalBounded(s: Sim, i: nat, price: real, cfg: Setup)
    requires Bounded(s, cfg) && s.position.Some?
    ensures Bounded(Close(s, i, price, Signal), cfg)
  {
  }

  lemma FillBounded(s: Sim, i: nat, bar: Bar, cfg: Setup)
    requires SaneSetup(cfg) && bar.open > 0.0 && Bounded(s, cfg)
    ensures Bounded(FillPending(s, i, bar, cfg), cfg)
  {
    EnterBounded(s, i, bar, cfg);
    if s.position.Some? {
      SignalBounded(s, i, SellFill(bar.open, cfg), cfg);
    }
  }

  lemma CloseBounded(s: Sim, i: nat, level: real, reason: Reason, cfg: Setup)
    requires SaneSetup(cfg) && Bounded(s, cfg) && s.position.Some? && level >= s.position.value.stopLoss
    ensures Bounded(Close(s, i, SellFill(level, cfg), reason), cfg)
  {
    ExitBounded(s.position.value, cfg, level);
  }

  lemma TargetAboveStop(p: Holding, cfg: Setup)
    requires SaneSetup(cfg) && Bought(p, cfg)
    ensures p.takeProfit >= p.stopLoss
  {
    ScaleUp(cfg.slP, cfg.tpP, p.entryPrice);
  }

  lemma BracketBounded(s: Sim, i: nat, bar: Bar, cfg: Setup)
    requires SaneSetup(cfg) && Bounded(s, cfg)
    ensures var t := CheckBracket(s, i, bar, cfg);
      Bounded(t, cfg) && (t.position.Some? ==> t.position.value.stopLoss < bar.low)
  {
    if s.position.Some? {
      TargetAboveStop(s.position.value, cfg);
      CloseBounded(s, i, s.position.value.stopLoss, StopLoss, cfg);
      CloseBounded(s, i, s.position.value.takeProfit, TakeProfit, cfg);
    }
  }

  lemma {:induction false} LossesBounded(bars: seq<Bar>, cfg: Setup)
    requires Sane(bars) && SaneSetup(cfg)
    ensures var s := After(bars, cfg);
      Bounded(s, cfg) && (s.position.Some? && bars != [] ==> s.position.value.stopLoss < bars[|bars| - 1].low)
  {
    if bars != [] {
      var n := |bars| - 1;
      LossesBounded(bars[..n], cfg);
      FillBounded(After(bars[..n], cfg), n, bars[n], cfg);
      BracketBounded(FillPending(After(bars[..n], cfg), n, bars[n], cfg), n, bars[n], cfg);
    }
  }

  /** A trade that no signal closed loses at most the bracket's share of the budget. */
  lemma TradeLossBounded(bars: seq<Bar>, cfg: Setup)
    requires Sane(bars) && SaneSetup(cfg)
    ensures forall k :: 0 <= k < |Simulation(bars, cfg).trades| ==> LossBounded(Simulation(bars, cfg).trades[k], cfg)
  {
    OnePointPerBar(bars, cfg);
    LossesBounded(bars, cfg);
    var s := After(bars, cfg);
    if s.position.Some? && bars != [] {
      CloseBounded(s, |bars| - 1, bars[|bars| - 1].close, EndOfData, cfg);
    }
  }

  lemma MarkedValue(qty: real, entry: real, fraction: real, close: real, budget: real)
    requires qty > 0.0 && close > entry * fraction && qty * entry <= budget && fraction <= 1.0
    ensures qty * close - qty * entry > -(budget * (1.0 - fraction))
  {
    assert (close - entry * fraction) * qty > 0.0;
    assert qty * close == qty * entry * fraction + (close - entry * fraction) * qty;
    ScaleUp(qty * entry, budget, 1.0 - fraction);
    assert qty * entry * (1.0 - fraction) == qty * entry - qty * entry * fraction;
  }

  /** Marked at a close above its stop, an open position has lost less than the stop would take. */
  lemma MarkBounded(p: Holding, cfg: Setup, close: real)
    requires SaneSetup(cfg) && Bought(p, cfg) && close > p.stopLoss
    ensures Value(p.qty, close) - Value(p.qty, p.entryPrice) > -(cfg.budget * (1.0 - cfg.slP))
  {
    MarkedValue(p.qty, p.entryPrice, cfg.slP, close, cfg.budget);
  }

  /** Every bar's equity point lies above the starting cash and what was realised by then, less what
      the stop can take while a position is open; with none open it is exactly that cash. */
  lemma EquityBounded(bars: seq<Bar>, cfg: Setup)
    requires Sane(bars) && SaneSetup(cfg) && bars != []
    ensures var s := After(bars, cfg);
      && |s.equity| == |bars|
      && var booked := cfg.budget + Realised(s.trades);
         if s.position.Some? then s.equity[|bars| - 1] > booked - cfg.budget * (1.0 - cfg.slP)
         else s.equity[|bars| - 1] == booked
  {
    OnePointPerBar(bars, cfg);
    CashConserved(bars, cfg);
    LossesBounded(bars, cfg);
    var s := After(bars, cfg);
    if s.position.Some? {
      MarkBounded(s.position.value, cfg, bars[|bars| - 1].close);
    }
  }
}
