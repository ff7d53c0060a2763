/** Every trade of a simulation, said in terms of the bars and the strategy alone: why it was entered,
    why it lasted, why and at what price it ended. */
module TradesExplained {
  import opened Wrappers
  import opened Simulator

  function Answer(bars: seq<Bar>, cfg: Setup, b: nat, holding: bool): Action
    requires b < |bars|
  {
    cfg.strategy(bars[b], holding, b == 0)
  }

  /** Bar `b` reaches neither level of a position entered at `price`. */
  predicate Untouched(bars: seq<Bar>, cfg: Setup, b: nat, price: real)
    requires b < |bars|
  {
    bars[b].low > Level(price, cfg.slP) && bars[b].high < Level(price, cfg.tpP)
  }

  /** Entered on bar `i`: the strategy, holding nothing, asked for it one bar before. */
  ghost predicate EnteredOn(bars: seq<Bar>, cfg: Setup, i: nat, price: real, qty: real) {
    && 0 < i < |bars| && Answer(bars, cfg, i - 1, false) == Buy
    && price == BuyFill(bars[i], cfg) && price != 0.0 && qty == QtyFor(cfg, price) && qty > 0.0
  }

  /** Nothing closed the position on the bars from `i` up to, not including, `end`: no level was reached,
      and the strategy did not ask to sell, except perhaps on the last of them. */
  ghost predicate HeldOver(bars: seq<Bar>, cfg: Setup, i: nat, end: nat, price: real) {
    && end <= |bars|
    && (forall b: nat :: i <= b < end ==> Untouched(bars, cfg, b, price))
    && (forall b: nat :: i <= b < end - 1 ==> Answer(bars, cfg, b, true) != Sell)
  }

  ghost predicate Exited(t: Trade, bars: seq<Bar>, cfg: Setup)
    requires t.exit < |bars|
  {
    var bar, stop, target := bars[t.exit], Level(t.entryPrice, cfg.slP), Level(t.entryPrice, cfg.tpP);
    match t.reason
    case Signal =>
      t.exit > t.entry && Answer(bars, cfg, t.exit - 1, true) == Sell && t.exitPrice == SellFill(bar.open, cfg)
    case StopLoss =>
      NoSellBefore(t, bars, cfg) && bar.low <= stop && t.exitPrice == SellFill(stop, cfg)
    case TakeProfit =>
      NoSellBefore(t, bars, cfg) && bar.low > stop && bar.high >= target && t.exitPrice == SellFill(target, cfg)
    case EndOfData =>
      NoSellBefore(t, bars, cfg) && Untouched(bars, cfg, t.exit, t.entryPrice) && t.exitPrice == SellFill(bar.close, cfg)
  }

  ghost predicate NoSellBefore(t: Trade, bars: seq<Bar>, cfg: Setup)
    requires t.exit < |bars|
  {
    t.exit > t.entry ==> Answer(bars, cfg, t.exit - 1, true) != Sell
  }

  ghost predicate Explained(t: Trade, bars: seq<Bar>, cfg: Setup) {
    && t.entry <= t.exit < |bars|
    && EnteredOn(bars, cfg, t.entry, t.entryPrice, t.qty)
    && HeldOver(bars, cfg, t.entry, t.exit, t.entryPrice)
    && Exited(t, bars, cfg)
    && t.pnl == Value(t.qty, t.exitPrice - t.entryPrice)
  }

  ghost predicate AllExplained(trades: seq<Trade>, bars: seq<Bar>, cfg: Setup) {
    forall k :: 0 <= k < |trades| ==> Explained(trades[k], bars, cfg)
  }

  ghost predicate InData(trades: seq<Trade>) {
    forall k :: 0 <= k < |trades| ==> trades[k].reason != EndOfData
  }

  /** The open position after `bars`. */
  ghost predicate Open(p: Holding, bars: seq<Bar>, cfg: Setup) {
    && p.entry < |bars| && EnteredOn(bars, cfg, p.entry, p.entryPrice, p.qty)
    && HeldOver(bars, cfg, p.entry, |bars|, p.entryPrice)
    && p.stopLoss == Level(p.entryPrice, cfg.slP) && p.takeProfit == Level(p.entryPrice, cfg.tpP)
  }

  /** The loop's state after `bars`, said declaratively. */
  ghost predicate Story(s: Sim, bars: seq<Bar>, cfg: Setup) {
    && AllExplained(s.trades, bars, cfg) && InData(s.trades)
    && (s.position.Some? ==> Open(s.position.value, bars, cfg))
    && s.pending == (if bars == [] then Hold else Answer(bars, cfg, |bars| - 1, s.position.Some?))
  }

  // ----- later bars change nothing about earlier ones

  lemma HeldStays(early: seq<Bar>, bars: seq<Bar>, cfg: Setup, i: nat, end: nat, price: real)
    requires early <= bars && HeldOver(early, cfg, i, end, price)
    ensures HeldOver(bars, cfg, i, end, price)
  {
    forall b: nat | i <= b < end ensures Untouched(bars, cfg, b, price) {
      assert Untouched(early, cfg, b, price) && bars[b] == early[b];
    }
    forall b: nat | i <= b < end - 1 ensures Answer(bars, cfg, b, true) != Sell {
      assert Answer(early, cfg, b, true) != Sell && bars[b] == early[b];
    }
  }

  lemma EntryStays(early: seq<Bar>, bars: seq<Bar>, cfg: Setup, i: nat, price: real, qty: real)
    requires early <= bars && EnteredOn(early, cfg, i, price, qty)
    ensures EnteredOn(bars, cfg, i, price, qty)
  {
    assert bars[i] == early[i] && bars[i - 1] == early[i - 1];
  }

  lemma ExplainedStays(t: Trade, early: seq<Bar>, bars: seq<Bar>, cfg: Setup)
    requires early <= bars && Explained(t, early, cfg)
    ensures Explained(t, bars, cfg)
  {
    EntryStays(early, bars, cfg, t.entry, t.entryPrice, t.qty);
    HeldStays(early, bars, cfg, t.entry, t.exit, t.entryPrice);
    assert bars[t.exit] == early[t.exit] && (t.exit > 0 ==> bars[t.exit - 1] == early[t.exit - 1]);
  }

  lemma AllExplainedStay(trades: seq<Trade>, early: seq<Bar>, bars: seq<Bar>, cfg: Setup)
    requires early <= bars && AllExplained(trades, early, cfg)
    ensures AllExplained(trades, bars, cfg)
  {
    forall k | 0 <= k < |trades| ensures Explained(trades[k], bars, cfg) {
      ExplainedStays(trades[k], early, bars, cfg);
    }
  }

  /** The position at the moment bar `n` has opened and its pending order is filled. */
  ghost predicate OpenSoFar(p: Holding, bars: seq<Bar>, cfg: Setup, n: nat) {
    && p.entry <= n < |bars| && EnteredOn(bars, cfg, p.entry, p.entryPrice, p.qty)
    && HeldOver(bars, cfg, p.entry, n, p.entryPrice)
    && (p.entry < n ==> Answer(bars, cfg, n - 1, true) != Sell)
    && p.stopLoss == Level(p.entryPrice, cfg.slP) && p.takeProfit == Level(p.entryPrice, cfg.tpP)
  }

  lemma SignalExplained(p: Holding, early: seq<Bar>, bars: seq<Bar>, cfg: Setup)
    requires early <= bars && |early| < |bars| && Open(p, early, cfg) && Answer(early, cfg, |early| - 1, true) == Sell
    ensures Explained(TradeOf(p, |early|, SellFill(bars[|early|].open, cfg), Signal), bars, cfg)
  {
    EntryStays(early, bars, cfg, p.entry, p.entryPrice, p.qty);
    HeldStays(early, bars, cfg, p.entry, |early|, p.entryPrice);
    assert bars[|early| - 1] == early[|early| - 1];
  }

  lemma StillOpen(p: Holding, early: seq<Bar>, bars: seq<Bar>, cfg: Setup)
    requires early <= bars && |early| < |bars| && Open(p, early, cfg) && Answer(early, cfg, |early| - 1, true) != Sell
    ensures OpenSoFar(p, bars, cfg, |early|)
  {
    EntryStays(early, bars, cfg, p.entry, p.entryPrice, p.qty);
    HeldStays(early, bars, cfg, p.entry, |early|, p.entryPrice);
    assert bars[|early| - 1] == early[|early| - 1];
  }

  lemma EntryExplained(early: seq<Bar>, bars: seq<Bar>, cfg: Setup)
    requires early <= bars && |early| < |bars| && early != [] && Answer(early, cfg, |early| - 1, false) == Buy
    requires QtyFor(cfg, BuyFill(bars[|early|], cfg)) > 0.0
    ensures var price := BuyFill(bars[|early|], cfg);
      OpenSoFar(Holding(|early|, price, QtyFor(cfg, price), Level(price, cfg.slP), Level(price, cfg.tpP)), bars, cfg, |early|)
  {
    assert forall b :: 0 <= b < |early| ==> bars[b] == early[b];
  }

  /** After the open of the bar that follows `early`. */
  ghost predicate MidStory(s: Sim, bars: seq<Bar>, cfg: Setup, n: nat) {
    AllExplained(s.trades, bars, cfg) && InData(s.trades) && (s.position.Some? ==> OpenSoFar(s.position.value, bars, cfg, n))
  }

  lemma FillKeepsStory(s: Sim, early: seq<Bar>, bars: seq<Bar>, cfg: Setup)
    requires early <= bars && |bars| == |early| + 1 && Story(s, early, cfg)
    ensures MidStory(FillPending(s, |early|, bars[|early|], cfg), bars, cfg, |early|)
  {
    var n := |early|;
    AllExplainedStay(s.trades, early, bars, cfg);
    if s.position.Some? {
      if s.pending == Sell {
        SignalExplained(s.position.value, early, bars, cfg);
      } else {
        StillOpen(s.position.value, early, bars, cfg);
      }
    } else if s.pending == Buy && QtyFor(cfg, BuyFill(bars[n], cfg)) > 0.0 {
      EntryExplained(early, bars, cfg);
    }
  }

  lemma BracketKeepsStory(s: Sim, bars: seq<Bar>, cfg: Setup, n: nat)
    requires n < |bars| && MidStory(s, bars, cfg, n)
    ensures var t := CheckBracket(s, n, bars[n], cfg);
      MidStory(t, bars, cfg, n) && (t.position.Some? ==> Untouched(bars, cfg, n, t.position.value.entryPrice))
  {
    if s.position.Some? {
      var p := s.position.value;
      if bars[n].low <= p.stopLoss {
        assert Explained(TradeOf(p, n, SellFill(p.stopLoss, cfg), StopLoss), bars, cfg);
      } else if bars[n].high >= p.takeProfit {
        assert Explained(TradeOf(p, n, SellFill(p.takeProfit, cfg), TakeProfit), bars, cfg);
      }
    }
  }

  lemma {:induction false} StoryKept(bars: seq<Bar>, cfg: Setup)
    ensures Story(After(bars, cfg), bars, cfg)
  {
    if bars != [] {
      var n := |bars| - 1;
      StoryKept(bars[..n], cfg);
      FillKeepsStory(After(bars[..n], cfg), bars[..n], bars, cfg);
      var filled := FillPending(After(bars[..n], cfg), n, bars[n], cfg);
      BracketKeepsStory(filled, bars, cfg, n);
      DecideKeepsStory(CheckBracket(filled, n, bars[n], cfg), bars, cfg);
    }
  }

  lemma DecideKeepsStory(s: Sim, bars: seq<Bar>, cfg: Setup)
    requires bars != [] && MidStory(s, bars, cfg, |bars| - 1)
    requires s.position.Some? ==> Untouched(bars, cfg, |bars| - 1, s.position.value.entryPrice)
    ensures Story(DecideAndMark(s, |bars| - 1, bars[|bars| - 1], cfg), bars, cfg)
  {
  }

  lemma AtEndExplained(p: Holding, bars: seq<Bar>, cfg: Setup)
    requires Open(p, bars, cfg)
    ensures Explained(TradeOf(p, |bars| - 1, SellFill(bars[|bars| - 1].close, cfg), EndOfData), bars, cfg)
  {
  }

  /** The main result: every trade was entered at the open after the strategy, holding nothing, said
      BUY; held over bars that reached neither level while the strategy did not say SELL; and ended for
      exactly the reason and at exactly the price it reports, the stop before the target. Only a trade
      still open at the end of the data is closed there. */
  lemma TradesAreExplained(bars: seq<Bar>, cfg: Setup)
    ensures AllExplained(Simulation(bars, cfg).trades, bars, cfg)
    ensures forall t :: t in Simulation(bars, cfg).trades && t.reason == EndOfData ==> t.exit == |bars| - 1
  {
    OnePointPerBar(bars, cfg);
    StoryKept(bars, cfg);
    var s := After(bars, cfg);
    if s.position.Some? && bars != [] {
      AtEndExplained(s.position.value, bars, cfg);
    }
  }
}
