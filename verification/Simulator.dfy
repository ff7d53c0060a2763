/** The bar-by-bar backtest: one symbol, one strategy, one position at a time. A decision on a bar
    fills at the next bar's open; a stop-loss and a take-profit off the entry price are checked on
    every bar the position is open. Bars are numbered; the index is taken to be unique, so a bar's
    number stands for its time. */
module Simulator {
  import opened Wrappers

  /** The indicator columns; only the strategy looks at them. */
  type Indicators(!new)

  datatype Bar = Bar(open: real, high: real, low: real, close: real, indicators: Indicators)

  /** What the strategy answers; anything but BUY and SELL is `Hold`. */
  datatype Action = Buy | Sell | Hold

  datatype Setup = Setup(crypto: bool, budget: real, slP: real, tpP: real, slippage: real, strategy: (Bar, bool, bool) -> Action)

  datatype Holding = Holding(entry: nat, entryPrice: real, qty: real, stopLoss: real, takeProfit: real)

  datatype Reason = Signal | TakeProfit | StopLoss | EndOfData

  datatype Trade = Trade(entry: nat, exit: nat, entryPrice: real, exitPrice: real, reason: Reason, qty: real, pnl: real)

  datatype Sim = Sim(cash: real, position: Option<Holding>, pending: Action, trades: seq<Trade>, equity: seq<real>)

  datatype Result = Result(startingCash: real, trades: seq<Trade>, equity: seq<real>)

  // ----- one bar

  function BuyFill(bar: Bar, cfg: Setup): real {
    bar.open * (1.0 + cfg.slippage)
  }

  function SellFill(price: real, cfg: Setup): real {
    price * (1.0 - cfg.slippage)
  }

  function Value(qty: real, price: real): real {
    qty * price
  }

  function Level(price: real, fraction: real): real {
    price * fraction
  }

  /** At a price of zero the source divides by zero; no quantity stands for that here. */
  function QtyFor(cfg: Setup, price: real): real {
    if price == 0.0 then 0.0
    else if cfg.crypto then cfg.budget / price
    else (cfg.budget / price).Floor as real
  }

  function Enter(s: Sim, i: nat, price: real, cfg: Setup): Sim {
    var qty := QtyFor(cfg, price);
    if qty > 0.0 then
      s.(cash := s.cash - Value(qty, price), position := Some(Holding(i, price, qty, Level(price, cfg.slP), Level(price, cfg.tpP))))
    else s
  }

  function Close(s: Sim, i: nat, price: real, reason: Reason): Sim
    requires s.position.Some?
  {
    var p := s.position.value;
    s.(cash := s.cash + Value(p.qty, price),
       trades := s.trades + [TradeOf(p, i, price, reason)],
       position := None)
  }

  function FillPending(s: Sim, i: nat, bar: Bar, cfg: Setup): Sim {
    var t :=
      if s.pending == Buy && s.position.None? then Enter(s, i, BuyFill(bar, cfg), cfg)
      else if s.pending == Sell && s.position.Some? then Close(s, i, SellFill(bar.open, cfg), Signal)
      else s;
    t.(pending := Hold)
  }

  /** The stop is taken to come first when one bar reaches both levels. */
  function CheckBracket(s: Sim, i: nat, bar: Bar, cfg: Setup): Sim {
    if s.position.None? then s
    else if bar.low <= s.position.value.stopLoss then Close(s, i, SellFill(s.position.value.stopLoss, cfg), StopLoss)
    else if bar.high >= s.position.value.takeProfit then Close(s, i, SellFill(s.position.value.takeProfit, cfg), TakeProfit)
    else s
  }

  function MarketValue(position: Option<Holding>, price: real): real {
    if position.Some? then Value(position.value.qty, price) else 0.0
  }

  function DecideAndMark(s: Sim, i: nat, bar: Bar, cfg: Setup): Sim {
    s.(pending := cfg.strategy(bar, s.position.Some?, i == 0), equity := s.equity + [s.cash + MarketValue(s.position, bar.close)])
  }

  function OneBar(s: Sim, i: nat, bar: Bar, cfg: Setup): Sim {
    DecideAndMark(CheckBracket(FillPending(s, i, bar, cfg), i, bar, cfg), i, bar, cfg)
  }

  /** The loop's variables after all of `bars`. */
  function After(bars: seq<Bar>, cfg: Setup): Sim {
    if bars == [] then Sim(cfg.budget, None, Hold, [], [])
    else
      var n := |bars| - 1;
      OneBar(After(bars[..n], cfg), n, bars[n], cfg)
  }

  function Finish(s: Sim, bars: seq<Bar>, cfg: Setup): Result
    requires |s.equity| == |bars|
  {
    if s.position.Some? && bars != [] then
      var n := |bars| - 1;
      var t := Close(s, n, SellFill(bars[n].close, cfg), EndOfData);
      Result(cfg.budget, t.trades, t.equity[n := t.cash])
    else Result(cfg.budget, s.trades, s.equity)
  }

  lemma {:induction false} OnePointPerBar(bars: seq<Bar>, cfg: Setup)
    ensures |After(bars, cfg).equity| == |bars|
  {
    if bars != [] {
      OnePointPerBar(bars[..|bars| - 1], cfg);
    }
  }

  function Simulation(bars: seq<Bar>, cfg: Setup): Result {
    OnePointPerBar(bars, cfg);
    Finish(After(bars, cfg), bars, cfg)
  }

  // ----- the loop as it is written

  predicate CanFill(s: Sim, bar: Bar, cfg: Setup) {
    s.pending == Buy && s.position.None? ==> BuyFill(bar, cfg) != 0.0
  }

  /** The order decided on the last bar fills at this one's open. */
  method FillAtOpen(s: Sim, i: nat, bar: Bar, cfg: Setup) returns (cash: real, position: Option<Holding>, trades: seq<Trade>)
    requires CanFill(s, bar, cfg)
    ensures Sim(cash, position, Hold, trades, s.equity) == FillPending(s, i, bar, cfg)
  {
    cash, position, trades := s.cash, s.position, s.trades;
    if s.pending == Buy && position.None? {
      var price := BuyFill(bar, cfg);
      var qty := if cfg.crypto then cfg.budget / price else (cfg.budget / price).Floor as real;
      if qty > 0.0 {
        cash := cash - Value(qty, price);
        position := Some(Holding(i, price, qty, Level(price, cfg.slP), Level(price, cfg.tpP)));
      }
    } else if s.pending == Sell && position.Some? {
      var price := SellFill(bar.open, cfg);
      cash := cash + Value(position.value.qty, price);
      trades := trades + [TradeOf(position.value, i, price, Signal)];
      position := None;
    }
  }

  method CloseAtBracket(s: Sim, i: nat, bar: Bar, cfg: Setup) returns (cash: real, position: Option<Holding>, trades: seq<Trade>)
    ensures Sim(cash, position, s.pending, trades, s.equity) == CheckBracket(s, i, bar, cfg)
  {
    cash, position, trades := s.cash, s.position, s.trades;
    if position.Some? {
      var hitStop := bar.low <= position.value.stopLoss;
      var hitTarget := bar.high >= position.value.takeProfit;
      if hitStop || hitTarget {
        var reason := if hitStop then StopLoss else TakeProfit;
        var price := SellFill(if hitStop then position.value.stopLoss else position.value.takeProfit, cfg);
        cash := cash + Value(position.value.qty, price);
        trades := trades + [TradeOf(position.value, i, price, reason)];
        position := None;
      }
    }
  }

  method CloseAtEnd(s: Sim, bars: seq<Bar>, cfg: Setup) returns (r: Result)
    requires |s.equity| == |bars|
    ensures r == Finish(s, bars, cfg)
  {
    var cash, trades, equity := s.cash, s.trades, s.equity;
    if s.position.Some? && bars != [] {
      var price := SellFill(bars[|bars| - 1].close, cfg);
      cash := cash + Value(s.position.value.qty, price);
      trades := trades + [TradeOf(s.position.value, |bars| - 1, price, EndOfData)];
      equity := equity[|bars| - 1 := cash];
    }
    r := Result(cfg.budget, trades, equity);
  }

  /** The runs in which the source never divides by zero: no BUY is waiting at a bar whose entry price
      would be zero. */
  ghost predicate Fillable(bars: seq<Bar>, cfg: Setup) {
    FillableTo(bars, cfg, |bars|)
  }

  ghost predicate FillableTo(bars: seq<Bar>, cfg: Setup, n: nat)
    requires n <= |bars|
  {
    forall k :: 0 <= k < n ==> CanFill(After(bars[..k], cfg), bars[k], cfg)
  }

  lemma NextBar(bars: seq<Bar>, cfg: Setup, i: nat)
    requires i < |bars|
    ensures After(bars[..i + 1], cfg) == OneBar(After(bars[..i], cfg), i, bars[i], cfg)
    ensures FillableTo(bars, cfg, i + 1) <==> FillableTo(bars, cfg, i) && CanFill(After(bars[..i], cfg), bars[i], cfg)
  {
    assert bars[..i + 1][..i] == bars[..i];
  }

  lemma NeverFillable(bars: seq<Bar>, cfg: Setup, i: nat)
    requires i < |bars| && !CanFill(After(bars[..i], cfg), bars[i], cfg)
    ensures !Fillable(bars, cfg)
  {
  }

  /** The rest of a bar once the order of the last one has filled. */
  method FinishBar(s: Sim, i: nat, bar: Bar, cfg: Setup) returns (t: Sim)
    requires s.pending == Hold
    ensures t == DecideAndMark(CheckBracket(s, i, bar, cfg), i, bar, cfg)
  {
    var cash, position, trades := CloseAtBracket(s, i, bar, cfg);
    var pending := Hold;
    var action := cfg.strategy(bar, position.Some?, i == 0);
    if action == Buy || action == Sell {
      pending := action;
    }
    t := Sim(cash, position, pending, trades, s.equity + [cash + MarketValue(position, bar.close)]);
  }

  /** None where the source would divide by zero. */
  method Simulate(bars: seq<Bar>, cfg: Setup) returns (r: Option<Result>)
    ensures r == if Fillable(bars, cfg) then Some(Simulation(bars, cfg)) else None
  {
    var s := Sim(cfg.budget, None, Hold, [], []);
    var i := 0;
    while i < |bars|
      invariant 0 <= i <= |bars|
      invariant s == After(bars[..i], cfg) && FillableTo(bars, cfg, i)
    {
      var bar := bars[i];
      NextBar(bars, cfg, i);
      if !CanFill(s, bar, cfg) {
        NeverFillable(bars, cfg, i);
        return None;
      }
      var cash, position, trades := FillAtOpen(s, i, bar, cfg);
      s := FinishBar(Sim(cash, position, Hold, trades, s.equity), i, bar, cfg);
      i := i + 1;
    }
    assert bars[..i] == bars;
    OnePointPerBar(bars, cfg);
    var result := CloseAtEnd(s, bars, cfg);
    return Some(result);
  }

  function TradeOf(p: Holding, exit: nat, price: real, reason: Reason): Trade {
    Trade(p.entry, exit, p.entryPrice, price, reason, p.qty, Value(p.qty, price - p.entryPrice))
  }
}
