/** Two runs of one strategy compared: cutting the data short, or changing what a bar does after its
    open, never changes a fill that came before. */
module NoLookahead {
  import opened Wrappers
  import opened Simulator

  // ----- a prefix of the data

  /** `late` only adds to `early`: trades that end at bar `m` or later, and equity points. */
  ghost predicate Extends(early: Sim, late: Sim, m: nat) {
    && |early.trades| <= |late.trades| && late.trades[..|early.trades|] == early.trades
    && (forall j :: |early.trades| <= j < |late.trades| ==> late.trades[j].exit >= m)
    && early.equity <= late.equity
  }

  lemma CloseExtends(early: Sim, s: Sim, m: nat, i: nat, price: real, reason: Reason)
    requires Extends(early, s, m) && m <= i && s.position.Some?
    ensures Extends(early, Close(s, i, price, reason), m)
  {
  }

  lemma BarExtends(early: Sim, s: Sim, m: nat, i: nat, bar: Bar, cfg: Setup)
    requires Extends(early, s, m) && m <= i
    ensures Extends(early, OneBar(s, i, bar, cfg), m)
  {
    if s.position.Some? {
      CloseExtends(early, s, m, i, SellFill(bar.open, cfg), Signal);
    }
    var filled := FillPending(s, i, bar, cfg);
    assert Extends(early, filled, m);
    if filled.position.Some? {
      CloseExtends(early, filled, m, i, SellFill(filled.position.value.stopLoss, cfg), StopLoss);
      CloseExtends(early, filled, m, i, SellFill(filled.position.value.takeProfit, cfg), TakeProfit);
    }
    assert Extends(early, CheckBracket(filled, i, bar, cfg), m);
  }

  lemma {:induction false} RunExtends(bars: seq<Bar>, m: nat, cfg: Setup)
    requires m <= |bars|
    ensures Extends(After(bars[..m], cfg), After(bars, cfg), m)
    decreases |bars|
  {
    if m == |bars| {
      assert bars[..m] == bars;
    } else {
      var n := |bars| - 1;
      assert bars[..n][..m] == bars[..m];
      RunExtends(bars[..n], m, cfg);
      BarExtends(After(bars[..m], cfg), After(bars[..n], cfg), m, n, bars[n], cfg);
    }
  }

  /** Trades agree up to the `k`-th; the short run has at most one more, closing what it still held. */
  ghost predicate AgreeUpTo(short: Result, long: Result, m: nat, k: nat) {
    && k <= |short.trades| && k <= |long.trades| && short.trades[..k] == long.trades[..k]
    && (k == |short.trades| || (k + 1 == |short.trades| && short.trades[k].reason == EndOfData && short.trades[k].exit == m - 1))
    && (forall j :: k <= j < |long.trades| ==> long.trades[j].exit >= m)
    && |short.equity| == m <= |long.equity|
    && (forall j :: 0 <= j < m - 1 ==> short.equity[j] == long.equity[j])
  }

  /** No lookahead: simulating a prefix gives the longer run's trades up to there, plus at most one
      end_of_data trade, with equal equity points except possibly the last. */
  lemma PrefixAgrees(bars: seq<Bar>, m: nat, cfg: Setup)
    requires m <= |bars|
    ensures exists k :: AgreeUpTo(Simulation(bars[..m], cfg), Simulation(bars, cfg), m, k)
  {
    var short, long := Simulation(bars[..m], cfg), Simulation(bars, cfg);
    OnePointPerBar(bars, cfg);
    OnePointPerBar(bars[..m], cfg);
    if m == |bars| {
      assert bars[..m] == bars;
      assert AgreeUpTo(short, long, m, |short.trades|);
    } else {
      RunExtends(bars, m, cfg);
      var early, late := After(bars[..m], cfg), After(bars, cfg);
      assert late.trades <= long.trades && early.trades <= short.trades;
      assert AgreeUpTo(short, long, m, |early.trades|);
    }
  }

  // ----- what a bar does after its open

  ghost predicate Signalled(trades: seq<Trade>, i: nat, t: Trade) {
    t in trades && t.exit == i && t.reason == Signal
  }

  ghost predicate EntryTrade(trades: seq<Trade>, i: nat, price: real, qty: real) {
    exists t :: t in trades && t.entry == i && t.entryPrice == price && t.qty == qty
  }

  /** A position was entered on bar `i` at this price and size; it is open or has become a trade. */
  ghost predicate Entered(s: Sim, i: nat, price: real, qty: real) {
    || EntryTrade(s.trades, i, price, qty)
    || (s.position.Some? && s.position.value.entry == i && s.position.value.entryPrice == price && s.position.value.qty == qty)
  }

  /** From `s` to `s'` nothing is signalled out on bar `i`, and no position is entered on it or lost. */
  ghost predicate SameFills(s: Sim, s': Sim, i: nat) {
    && (forall t :: Signalled(s.trades, i, t) <==> Signalled(s'.trades, i, t))
    && (forall price, qty :: Entered(s, i, price, qty) <==> Entered(s', i, price, qty))
  }

  lemma CloseSameFills(s: Sim, i: nat, j: nat, price: real, reason: Reason)
    requires s.position.Some? && (j != i || reason != Signal)
    ensures SameFills(s, Close(s, j, price, reason), i)
  {
    var s' := Close(s, j, price, reason);
    var added := TradeOf(s.position.value, j, price, reason);
    assert forall t :: t in s'.trades <==> t in s.trades || t == added;
    forall p, q ensures Entered(s, i, p, q) <==> Entered(s', i, p, q) {
      if s.position.value.entry == i && s.position.value.entryPrice == p && s.position.value.qty == q {
        assert added in s'.trades;
      }
    }
  }

  lemma BracketSameFills(s: Sim, i: nat, j: nat, bar: Bar, cfg: Setup)
    ensures SameFills(s, CheckBracket(s, j, bar, cfg), i)
  {
    if s.position.Some? {
      CloseSameFills(s, i, j, SellFill(s.position.value.stopLoss, cfg), StopLoss);
      CloseSameFills(s, i, j, SellFill(s.position.value.takeProfit, cfg), TakeProfit);
    }
  }

  lemma LaterFillSame(s: Sim, i: nat, j: nat, bar: Bar, cfg: Setup)
    requires i < j
    ensures SameFills(s, FillPending(s, j, bar, cfg), i)
  {
    if s.position.Some? {
      CloseSameFills(s, i, j, SellFill(bar.open, cfg), Signal);
    }
  }

  lemma AfterOpenSame(s: Sim, i: nat, j: nat, bar: Bar, cfg: Setup)
    ensures SameFills(FillPending(s, j, bar, cfg), OneBar(s, j, bar, cfg), i)
  {
    BracketSameFills(FillPending(s, j, bar, cfg), i, j, bar, cfg);
  }

  lemma SameFillsChain(s: Sim, t: Sim, u: Sim, i: nat)
    requires SameFills(s, t, i) && SameFills(t, u, i)
    ensures SameFills(s, u, i)
  {
  }

  lemma LaterBarSame(filled: Sim, s: Sim, i: nat, j: nat, bar: Bar, cfg: Setup)
    requires SameFills(filled, s, i) && i < j
    ensures SameFills(filled, OneBar(s, j, bar, cfg), i)
  {
    LaterFillSame(s, i, j, bar, cfg);
    SameFillsChain(filled, s, FillPending(s, j, bar, cfg), i);
    AfterOpenSame(s, i, j, bar, cfg);
    SameFillsChain(filled, FillPending(s, j, bar, cfg), OneBar(s, j, bar, cfg), i);
  }

  lemma LastBarSame(filled: Sim, bars: seq<Bar>, i: nat, cfg: Setup)
    requires i < |bars| - 1 && SameFills(filled, After(bars[..|bars| - 1], cfg), i)
    ensures SameFills(filled, After(bars, cfg), i)
  {
    var n := |bars| - 1;
    assert After(bars, cfg) == OneBar(After(bars[..n], cfg), n, bars[n], cfg);
    LaterBarSame(filled, After(bars[..n], cfg), i, n, bars[n], cfg);
  }

  lemma {:induction false} LaterBarsSame(filled: Sim, bars: seq<Bar>, i: nat, cfg: Setup)
    requires i < |bars|
    requires SameFills(filled, After(bars[..i + 1], cfg), i)
    ensures SameFills(filled, After(bars, cfg), i)
    decreases |bars|
  {
    var n := |bars| - 1;
    if i == n {
      assert bars[..i + 1] == bars;
    } else {
      assert bars[..n][..i + 1] == bars[..i + 1];
      LaterBarsSame(filled, bars[..n], i, cfg);
      LastBarSame(filled, bars, i, cfg);
    }
  }

  /** What happens on bar `i` after its open, and on later bars, leaves the fills of bar `i` alone. */
  lemma FillsStand(bars: seq<Bar>, i: nat, cfg: Setup)
    requires i < |bars|
    ensures SameFills(FillPending(After(bars[..i], cfg), i, bars[i], cfg), After(bars, cfg), i)
  {
    assert bars[..i + 1][..i] == bars[..i];
    AfterOpenSame(After(bars[..i], cfg), i, i, bars[i], cfg);
    LaterBarsSame(FillPending(After(bars[..i], cfg), i, bars[i], cfg), bars, i, cfg);
  }

  lemma ResultFills(bars: seq<Bar>, i: nat, cfg: Setup)
    requires i < |bars|
    ensures var filled := FillPending(After(bars[..i], cfg), i, bars[i], cfg);
      && (forall t :: Signalled(Simulation(bars, cfg).trades, i, t) <==> Signalled(filled.trades, i, t))
      && (forall price, qty :: EntryTrade(Simulation(bars, cfg).trades, i, price, qty) <==> Entered(filled, i, price, qty))
  {
    OnePointPerBar(bars, cfg);
    FillsStand(bars, i, cfg);
    var s := After(bars, cfg);
    if s.position.Some? {
      CloseSameFills(s, i, |bars| - 1, SellFill(bars[|bars| - 1].close, cfg), EndOfData);
    }
  }

  /** Runs that agree before bar `i` and on its open fill the same orders there: the same signal
      exits, and the same entry at the same price and size, whatever else the bar holds. */
  lemma FillsSeeOnlyTheOpen(bars: seq<Bar>, others: seq<Bar>, i: nat, cfg: Setup)
    requires i < |bars| && i < |others|
    requires bars[..i] == others[..i] && bars[i].open == others[i].open
    ensures forall t :: Signalled(Simulation(bars, cfg).trades, i, t) <==> Signalled(Simulation(others, cfg).trades, i, t)
    ensures forall price, qty ::
      EntryTrade(Simulation(bars, cfg).trades, i, price, qty) <==> EntryTrade(Simulation(others, cfg).trades, i, price, qty)
  {
    ResultFills(bars, i, cfg);
    ResultFills(others, i, cfg);
    assert BuyFill(bars[i], cfg) == BuyFill(others[i], cfg);
  }
}
