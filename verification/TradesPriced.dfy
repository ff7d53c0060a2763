/** The numbers of a simulation in plain arithmetic: what each trade paid, how much it bought, what it got,
    what every equity point is worth; and exactly when a BUY opens a position. */
module TradesPriced {
  import opened Wrappers
  import opened Simulator
  import opened SimulatorLaws
  import opened TradesExplained
  import BracketOrders

  // ----- how much is bought

  /** Crypto spends the whole budget; a stock position is the largest whole number of shares it pays for. */
  ghost predicate SizedTo(cfg: Setup, price: real, qty: real) {
    if cfg.crypto then qty * price == cfg.budget
    else qty == qty.Floor as real && (price > 0.0 ==> qty * price <= cfg.budget < (qty + 1.0) * price)
  }

  lemma Between(budget: real, price: real, low: real, exact: real, high: real)
    requires price > 0.0 && exact * price == budget && low <= exact < high
    ensures low * price <= budget < high * price
  {
    BracketOrders.TimesKeeps(low, exact, price);
    BracketOrders.TimesKeepsStrict(exact, high, price);
  }

  lemma QuotientTimes(x: real, y: real)
    requires y != 0.0
    ensures x / y * y == x
  {
  }

  lemma QtySized(cfg: Setup, price: real)
    requires price != 0.0
    ensures SizedTo(cfg, price, QtyFor(cfg, price))
  {
    QuotientTimes(cfg.budget, price);
    if !cfg.crypto && price > 0.0 {
      var exact := cfg.budget / price;
      Between(cfg.budget, price, exact.Floor as real, exact, exact.Floor as real + 1.0);
    }
  }

  /** The budget pays for a positive quantity at this price: some of a coin, or a whole share. */
  ghost predicate Pays(cfg: Setup, price: real) {
    price != 0.0 && if cfg.crypto then cfg.budget / price > 0.0 else cfg.budget / price >= 1.0
  }

  lemma PaysIff(cfg: Setup, price: real)
    ensures QtyFor(cfg, price) > 0.0 <==> Pays(cfg, price)
  {
  }

  // ----- the trades

  /** Bought at the open with slippage against the trader, in the quantity the budget gives. */
  ghost predicate Bought(bars: seq<Bar>, cfg: Setup, entry: nat, price: real, qty: real) {
    && 0 < entry < |bars| && cfg.strategy(bars[entry - 1], false, entry == 1) == Buy
    && price == bars[entry].open * (1.0 + cfg.slippage) && qty > 0.0 && SizedTo(cfg, price, qty)
  }

  /** The bar reaches neither level of a position entered at `price`. */
  ghost predicate Within(bar: Bar, price: real, cfg: Setup) {
    bar.low > price * cfg.slP && bar.high < price * cfg.tpP
  }

  ghost predicate StaysWithin(bars: seq<Bar>, cfg: Setup, i: nat, end: nat, price: real) {
    end <= |bars| && forall b: nat :: i <= b < end ==> Within(bars[b], price, cfg)
  }

  /** The bar on which a trade ends bears out its reason, and the price is the one the reason names, with
      slippage against the trader. */
  ghost predicate Ends(t: Trade, bars: seq<Bar>, cfg: Setup)
    requires t.exit < |bars|
  {
    var bar := bars[t.exit];
    match t.reason
    case Signal => t.exit > t.entry && cfg.strategy(bars[t.exit - 1], true, t.exit == 1) == Sell && t.exitPrice == bar.open * (1.0 - cfg.slippage)
    case StopLoss => bar.low <= t.entryPrice * cfg.slP && t.exitPrice == t.entryPrice * cfg.slP * (1.0 - cfg.slippage)
    case TakeProfit =>
      bar.low > t.entryPrice * cfg.slP && bar.high >= t.entryPrice * cfg.tpP && t.exitPrice == t.entryPrice * cfg.tpP * (1.0 - cfg.slippage)
    case EndOfData => Within(bar, t.entryPrice, cfg) && t.exitPrice == bar.close * (1.0 - cfg.slippage)
  }

  ghost predicate Priced(t: Trade, bars: seq<Bar>, cfg: Setup) {
    && t.entry <= t.exit < |bars| && Bought(bars, cfg, t.entry, t.entryPrice, t.qty)
    && StaysWithin(bars, cfg, t.entry, t.exit, t.entryPrice) && Ends(t, bars, cfg)
    && t.pnl == t.qty * (t.exitPrice - t.entryPrice)
  }

  lemma EntryPriced(bars: seq<Bar>, cfg: Setup, i: nat, price: real, qty: real)
    requires EnteredOn(bars, cfg, i, price, qty)
    ensures Bought(bars, cfg, i, price, qty)
  {
    QtySized(cfg, price);
  }

  lemma UntouchedIsWithin(bars: seq<Bar>, cfg: Setup, b: nat, price: real)
    requires b < |bars|
    ensures Untouched(bars, cfg, b, price) <==> Within(bars[b], price, cfg)
  {
  }

  lemma HeldIsWithin(bars: seq<Bar>, cfg: Setup, i: nat, end: nat, price: real)
    requires HeldOver(bars, cfg, i, end, price)
    ensures StaysWithin(bars, cfg, i, end, price)
  {
    forall b: nat | i <= b < end ensures Within(bars[b], price, cfg) {
      UntouchedIsWithin(bars, cfg, b, price);
    }
  }

  lemma ExitEnds(t: Trade, bars: seq<Bar>, cfg: Setup)
    requires t.exit < |bars| && Exited(t, bars, cfg)
    ensures Ends(t, bars, cfg)
  {
    match t.reason
    case EndOfData => UntouchedIsWithin(bars, cfg, t.exit, t.entryPrice);
    case _ =>
  }

  lemma ExplainedPriced(t: Trade, bars: seq<Bar>, cfg: Setup)
    requires Explained(t, bars, cfg)
    ensures Priced(t, bars, cfg)
  {
    EntryPriced(bars, cfg, t.entry, t.entryPrice, t.qty);
    HeldIsWithin(bars, cfg, t.entry, t.exit, t.entryPrice);
    ExitEnds(t, bars, cfg);
  }

  /** The main result on trades, in plain arithmetic. */
  lemma TradesArePriced(bars: seq<Bar>, cfg: Setup)
    ensures forall t :: t in Simulation(bars, cfg).trades ==> Priced(t, bars, cfg)
  {
    TradesAreExplained(bars, cfg);
    forall t | t in Simulation(bars, cfg).trades ensures Priced(t, bars, cfg) {
      ExplainedPriced(t, bars, cfg);
    }
  }

  /** The open position after `bars`, in the same terms. */
  ghost predicate PricedSoFar(p: Holding, bars: seq<Bar>, cfg: Setup) {
    && Bought(bars, cfg, p.entry, p.entryPrice, p.qty) && StaysWithin(bars, cfg, p.entry, |bars|, p.entryPrice)
    && p.stopLoss == p.entryPrice * cfg.slP && p.takeProfit == p.entryPrice * cfg.tpP
  }

  lemma OpenPriced(p: Holding, bars: seq<Bar>, cfg: Setup)
    requires Open(p, bars, cfg)
    ensures PricedSoFar(p, bars, cfg)
  {
    EntryPriced(bars, cfg, p.entry, p.entryPrice, p.qty);
    HeldIsWithin(bars, cfg, p.entry, |bars|, p.entryPrice);
  }

  lemma PositionIsPriced(bars: seq<Bar>, cfg: Setup)
    requires After(bars, cfg).position.Some?
    ensures PricedSoFar(After(bars, cfg).position.value, bars, cfg)
  {
    StoryKept(bars, cfg);
    OpenPriced(After(bars, cfg).position.value, bars, cfg);
  }

  // ----- when a position opens

  /** A position was opened on bar `n`: it is open still, or it is the last trade. */
  ghost predicate OpenedOn(s: Sim, n: nat) {
    (s.position.Some? && s.position.value.entry == n) || (exists k :: 0 <= k < |s.trades| && s.trades[k].entry == n)
  }

  /** What the bar's open costs, slippage against the trader. */
  function Cost(bar: Bar, cfg: Setup): real {
    bar.open * (1.0 + cfg.slippage)
  }

  lemma EntersIff(s: Sim, n: nat, bar: Bar, cfg: Setup, t: Sim)
    requires t == OneBar(s, n, bar, cfg)
    requires s.position.None? && s.pending == Buy && forall k :: 0 <= k < |s.trades| ==> s.trades[k].entry < n
    ensures OpenedOn(t, n) <==> Pays(cfg, Cost(bar, cfg))
  {
    PaysIff(cfg, BuyFill(bar, cfg));
    var filled := FillPending(s, n, bar, cfg);
    var closed := CheckBracket(filled, n, bar, cfg);
    assert t.trades == closed.trades && t.position == closed.position;
    if filled.position.Some? && closed.position.None? {
      assert closed.trades[|s.trades|].entry == n;
    }
  }

  lemma LastBar(bars: seq<Bar>, cfg: Setup)
    requires bars != []
    ensures var n := |bars| - 1; After(bars, cfg) == OneBar(After(bars[..n], cfg), n, bars[n], cfg)
  {
  }

  lemma EarlierEntries(early: seq<Bar>, cfg: Setup)
    ensures forall k :: 0 <= k < |After(early, cfg).trades| ==> After(early, cfg).trades[k].entry < |early|
  {
    StoryKept(early, cfg);
    forall k | 0 <= k < |After(early, cfg).trades| ensures After(early, cfg).trades[k].entry < |early| {
      assert Explained(After(early, cfg).trades[k], early, cfg);
    }
  }

  lemma AnswerPends(early: seq<Bar>, cfg: Setup)
    requires early != [] && After(early, cfg).position.None?
    ensures After(early, cfg).pending == cfg.strategy(early[|early| - 1], false, |early| == 1)
  {
    StoryKept(early, cfg);
  }

  /** The strategy, holding nothing after all bars but the last, said BUY. */
  ghost predicate AskedToBuy(bars: seq<Bar>, cfg: Setup) {
    |bars| >= 2 && After(bars[..|bars| - 1], cfg).position.None? && cfg.strategy(bars[|bars| - 2], false, |bars| == 2) == Buy
  }

  lemma ReadyToBuy(bars: seq<Bar>, cfg: Setup)
    requires AskedToBuy(bars, cfg)
    ensures var s := After(bars[..|bars| - 1], cfg);
      s.position.None? && s.pending == Buy && forall k :: 0 <= k < |s.trades| ==> s.trades[k].entry < |bars| - 1
  {
    var n := |bars| - 1;
    EarlierEntries(bars[..n], cfg);
    AnswerPends(bars[..n], cfg);
    assert bars[..n][n - 1] == bars[n - 1];
  }

  /** After a BUY said while holding nothing the next bar opens a position exactly when the budget pays for
      a positive quantity at its open. */
  lemma BuyOpensIff(bars: seq<Bar>, cfg: Setup)
    requires AskedToBuy(bars, cfg)
    ensures var n := |bars| - 1; OpenedOn(After(bars, cfg), n) <==> Pays(cfg, Cost(bars[n], cfg))
  {
    var n := |bars| - 1;
    var s := After(bars[..n], cfg);
    ReadyToBuy(bars, cfg);
    LastBar(bars, cfg);
    EntersIff(s, n, bars[n], cfg, After(bars, cfg));
  }

  // ----- the equity curve

  /** What an open position is worth beyond its cost at the last close. */
  function Unrealised(s: Sim, close: real): real {
    if s.position.Some? then s.position.value.qty * (close - s.position.value.entryPrice) else 0.0
  }

  lemma Gain(qty: real, close: real, price: real)
    ensures Value(qty, close) - Value(qty, price) == qty * (close - price)
  {
  }

  lemma Marked(s: Sim, close: real, cfg: Setup)
    requires Books(s, cfg)
    ensures s.cash + MarketValue(s.position, close) == cfg.budget + Realised(s.trades) + Unrealised(s, close)
  {
    if s.position.Some? {
      Gain(s.position.value.qty, close, s.position.value.entryPrice);
    }
  }

  lemma LastPoint(bars: seq<Bar>, cfg: Setup)
    requires bars != []
    ensures var s := After(bars, cfg); var n := |bars| - 1;
      && |s.equity| == |bars| && s.equity[..n] == After(bars[..n], cfg).equity
      && s.equity[n] == cfg.budget + Realised(s.trades) + Unrealised(s, bars[n].close)
  {
    var n := |bars| - 1;
    OnePointPerBar(bars[..n], cfg);
    CashConserved(bars, cfg);
    PointsKept(After(bars[..n], cfg), n, bars[n], cfg);
    Marked(After(bars, cfg), bars[n].close, cfg);
  }

  lemma PointsKept(s: Sim, i: nat, bar: Bar, cfg: Setup)
    ensures var t := OneBar(s, i, bar, cfg);
      && t.equity == s.equity + [t.cash + MarketValue(t.position, bar.close)]
  {
  }

  /** Every point of the curve but the last is the starting cash, plus what the trades up to there made,
      plus what the open position has gained at that bar's close. */
  lemma {:induction false} EquityIsWorth(bars: seq<Bar>, cfg: Setup, k: nat)
    requires k < |bars|
    ensures var s := After(bars[..k + 1], cfg);
      |After(bars, cfg).equity| == |bars| && After(bars, cfg).equity[k] == cfg.budget + Realised(s.trades) + Unrealised(s, bars[k].close)
    decreases |bars|
  {
    LastPoint(bars, cfg);
    var n := |bars| - 1;
    if k == n {
      assert bars[..k + 1] == bars;
    } else {
      EquityIsWorth(bars[..n], cfg, k);
      assert bars[..n][..k + 1] == bars[..k + 1];
      assert After(bars, cfg).equity[k] == After(bars, cfg).equity[..n][k];
    }
  }

  /** The simulation's curve is this one, its last point replaced when a position is closed at the end. */
  lemma CurveIsWorth(bars: seq<Bar>, cfg: Setup, k: nat)
    requires k < |bars| - 1 || (k == |bars| - 1 && After(bars, cfg).position.None?)
    ensures var r := Simulation(bars, cfg); var s := After(bars[..k + 1], cfg);
      |r.equity| == |bars| && r.equity[k] == cfg.budget + Realised(s.trades) + Unrealised(s, bars[k].close)
  {
    OnePointPerBar(bars, cfg);
    EquityIsWorth(bars, cfg, k);
  }
}
