/** The figures read off a simulation's result. */
module Metrics {
  import opened Simulator
  import opened SimulatorLaws

  // ----- drawdown

  /** The running maximum, cummax of the curve at `k`. */
  function Peak(curve: seq<real>, k: nat): real
    requires k < |curve|
  {
    if k == 0 then curve[0] else if Peak(curve, k - 1) < curve[k] then curve[k] else Peak(curve, k - 1)
  }

  lemma {:induction false} PeakIsHighest(curve: seq<real>, k: nat, i: nat)
    requires i <= k < |curve|
    ensures curve[i] <= Peak(curve, k)
  {
    if k > 0 {
      PeakIsHighest(curve, k - 1, if i < k then i else 0);
    }
  }

  lemma {:induction false} PeakReached(curve: seq<real>, k: nat) returns (i: nat)
    requires k < |curve|
    ensures i <= k && Peak(curve, k) == curve[i]
  {
    if k == 0 || Peak(curve, k - 1) < curve[k] {
      i := k;
    } else {
      i := PeakReached(curve, k - 1);
    }
  }

  function Change(from: real, to: real): real
    requires from != 0.0
  {
    (to - from) / from
  }

  /** A first point above zero keeps every running maximum above it. */
  function Drawdown(curve: seq<real>, k: nat): real
    requires k < |curve| && curve[0] > 0.0
  {
    PeakIsHighest(curve, k, 0);
    Change(Peak(curve, k), curve[k])
  }

  function LowestDrawdown(curve: seq<real>, n: nat): real
    requires 0 < n <= |curve| && curve[0] > 0.0
  {
    if n == 1 then Drawdown(curve, 0)
    else if Drawdown(curve, n - 1) < LowestDrawdown(curve, n - 1) then Drawdown(curve, n - 1)
    else LowestDrawdown(curve, n - 1)
  }

  function MaxDrawdown(r: Result): real
    requires r.equity != [] ==> r.equity[0] > 0.0
  {
    if r.equity == [] then 0.0 else LowestDrawdown(r.equity, |r.equity|)
  }

  lemma {:induction false} LowestIsLeast(curve: seq<real>, n: nat, k: nat)
    requires k < n <= |curve| && curve[0] > 0.0
    ensures LowestDrawdown(curve, n) <= Drawdown(curve, k)
  {
    if n > 1 {
      LowestIsLeast(curve, n - 1, if k < n - 1 then k else 0);
    }
  }

  lemma {:induction false} LowestReached(curve: seq<real>, n: nat) returns (k: nat)
    requires 0 < n <= |curve| && curve[0] > 0.0
    ensures k < n && LowestDrawdown(curve, n) == Drawdown(curve, k)
  {
    if n == 1 || Drawdown(curve, n - 1) < LowestDrawdown(curve, n - 1) {
      k := n - 1;
    } else {
      k := LowestReached(curve, n - 1);
    }
  }

  lemma ChangeTimes(from: real, to: real)
    requires from != 0.0
    ensures (Change(from, to) + 1.0) * from == to
  {
  }

  lemma ScaleUp(x: real, y: real, z: real)
    requires z > 0.0
    ensures x < y <==> x * z < y * z
  {
    assert (y - x) * z == y * z - x * z;
  }

  /** From a higher point the same level is the deeper fall. */
  lemma HigherFallsFurther(low: real, high: real, level: real)
    requires 0.0 < low <= high && level > 0.0
    ensures -1.0 < Change(high, level) <= Change(low, level)
  {
    ChangeTimes(low, level);
    ChangeTimes(high, level);
    FractionsOf(Change(high, level) + 1.0, Change(low, level) + 1.0, low, high, level);
  }

  lemma FractionsOf(x: real, y: real, low: real, high: real, level: real)
    requires 0.0 < low <= high && level > 0.0 && x * high == level && y * low == level
    ensures 0.0 < x <= y
  {
    ScaleUp(0.0, x, high);
    ScaleUp(low, high, x);
    ScaleUp(y, x, low);
  }

  ghost predicate Positive(curve: seq<real>) {
    forall k :: 0 <= k < |curve| ==> curve[k] > 0.0
  }

  ghost predicate Fall(curve: seq<real>, i: nat, j: nat, d: real)
    requires Positive(curve)
  {
    i <= j < |curve| && Change(curve[i], curve[j]) == d
  }

  /** On a positive curve the running-maximum form is the deepest fall between any two points in order:
      no pair falls further, and some pair falls that far. */
  lemma DrawdownIsDeepestFall(r: Result)
    requires Positive(r.equity) && r.equity != []
    ensures forall i: nat, j: nat :: i <= j < |r.equity| ==> MaxDrawdown(r) <= Change(r.equity[i], r.equity[j])
    ensures exists i: nat, j: nat :: Fall(r.equity, i, j, MaxDrawdown(r))
    ensures -1.0 < MaxDrawdown(r) <= 0.0
  {
    var curve := r.equity;
    forall i: nat, j: nat | i <= j < |curve| ensures MaxDrawdown(r) <= Change(curve[i], curve[j]) {
      LowestIsLeast(curve, |curve|, j);
      PeakIsHighest(curve, j, i);
      HigherFallsFurther(curve[i], Peak(curve, j), curve[j]);
    }
    var j := LowestReached(curve, |curve|);
    var i := PeakReached(curve, j);
    assert Fall(curve, i, j, MaxDrawdown(r));
    HigherFallsFurther(curve[i], curve[i], curve[j]);
    assert MaxDrawdown(r) <= Change(curve[0], curve[0]);
  }

  // ----- trades

  function TotalReturn(r: Result): real
    requires r.startingCash != 0.0
  {
    var final := if r.equity == [] then r.startingCash else r.equity[|r.equity| - 1];
    (final - r.startingCash) / r.startingCash
  }

  function Mean(total: real, n: nat): real {
    if n == 0 then 0.0 else total / n as real
  }

  lemma MeanTimes(total: real, n: nat)
    requires n == 0 ==> total == 0.0
    ensures Mean(total, n) * n as real == total
  {
  }

  function Expectancy(trades: seq<Trade>): real {
    Mean(Realised(trades), |trades|)
  }

  function Chosen(trades: seq<Trade>, won: bool): seq<Trade> {
    if trades == [] then []
    else
      var rest, last := Chosen(trades[..|trades| - 1], won), trades[|trades| - 1];
      if (last.pnl > 0.0) == won then rest + [last] else rest
  }

  function WinRate(trades: seq<Trade>): real {
    Mean(|Chosen(trades, true)| as real, |trades|)
  }

  /** The average win for `won`, the average loss (or scratch) otherwise; 0 when there is none. */
  function Average(trades: seq<Trade>, won: bool): real {
    Mean(Realised(Chosen(trades, won)), |Chosen(trades, won)|)
  }

  lemma {:induction false} WinsAndLosses(trades: seq<Trade>)
    ensures |Chosen(trades, true)| + |Chosen(trades, false)| == |trades|
    ensures Realised(Chosen(trades, true)) + Realised(Chosen(trades, false)) == Realised(trades)
  {
    if trades != [] {
      var rest, last := trades[..|trades| - 1], trades[|trades| - 1];
      WinsAndLosses(rest);
      var won := last.pnl > 0.0;
      assert Chosen(trades, won) == Chosen(rest, won) + [last];
      assert (Chosen(rest, won) + [last])[..|Chosen(rest, won)|] == Chosen(rest, won);
      assert Chosen(trades, !won) == Chosen(rest, !won);
    }
  }

  /** The trades that made money (`won`), or those that did not. */
  function Which(trades: seq<Trade>, won: bool): set<nat> {
    set k: nat | k < |trades| && (if won then trades[k].pnl > 0.0 else trades[k].pnl <= 0.0)
  }

  function Counted(trade: Trade, won: bool): real {
    if won && trade.pnl > 0.0 then trade.pnl else if !won && trade.pnl <= 0.0 then trade.pnl else 0.0
  }

  /** What they add up to. */
  function SumOver(trades: seq<Trade>, won: bool): real {
    if trades == [] then 0.0 else SumOver(trades[..|trades| - 1], won) + Counted(trades[|trades| - 1], won)
  }

  lemma OneMoreChosen(trades: seq<Trade>, won: bool)
    requires trades != []
    ensures var rest, last := trades[..|trades| - 1], trades[|trades| - 1];
      && Realised(Chosen(trades, won)) == Realised(Chosen(rest, won)) + Counted(last, won)
      && |Chosen(trades, won)| == |Chosen(rest, won)| + (if (last.pnl > 0.0) == won then 1 else 0)
  {
    var rest, last := trades[..|trades| - 1], trades[|trades| - 1];
    if (last.pnl > 0.0) == won {
      assert Chosen(trades, won) == Chosen(rest, won) + [last];
      assert (Chosen(rest, won) + [last])[..|Chosen(rest, won)|] == Chosen(rest, won);
    }
  }

  lemma OneMoreWhich(trades: seq<Trade>, won: bool)
    requires trades != []
    ensures var rest, last := trades[..|trades| - 1], trades[|trades| - 1];
      |Which(trades, won)| == |Which(rest, won)| + (if (last.pnl > 0.0) == won then 1 else 0)
  {
    var n := |trades| - 1;
    assert n !in Which(trades[..n], won);
    assert Which(trades, won) == Which(trades[..n], won) + (if (trades[n].pnl > 0.0) == won then {n} else {});
  }

  lemma {:induction false} ChosenCounts(trades: seq<Trade>, won: bool)
    ensures |Chosen(trades, won)| == |Which(trades, won)| && Realised(Chosen(trades, won)) == SumOver(trades, won)
  {
    if trades == [] {
      assert Which(trades, won) == {};
    } else {
      ChosenCounts(trades[..|trades| - 1], won);
      OneMoreChosen(trades, won);
      OneMoreWhich(trades, won);
    }
  }

  /** A rate or average, times what it is taken over, is the total; and 0 over nothing. */
  ghost predicate MeanOf(mean: real, total: real, n: nat) {
    mean * n as real == total && (n == 0 ==> mean == 0.0)
  }

  lemma MeanIs(total: real, n: nat)
    requires n == 0 ==> total == 0.0
    ensures MeanOf(Mean(total, n), total, n)
  {
  }

  lemma AverageIs(trades: seq<Trade>, won: bool)
    ensures MeanOf(Average(trades, won), SumOver(trades, won), |Which(trades, won)|)
  {
    ChosenCounts(trades, won);
    MeanIs(Realised(Chosen(trades, won)), |Chosen(trades, won)|);
  }

  /** The win rate is the share of trades that made money, and the two averages are over those that did and
      those that did not. */
  lemma RatesAreShares(trades: seq<Trade>)
    ensures MeanOf(WinRate(trades), |Which(trades, true)| as real, |trades|)
    ensures MeanOf(Average(trades, true), SumOver(trades, true), |Which(trades, true)|)
    ensures MeanOf(Average(trades, false), SumOver(trades, false), |Which(trades, false)|)
  {
    ChosenCounts(trades, true);
    MeanIs(|Chosen(trades, true)| as real, |trades|);
    AverageIs(trades, true);
    AverageIs(trades, false);
  }

  /** expectancy = win rate * average win + (1 - win rate) * average loss. */
  lemma ExpectancySplits(trades: seq<Trade>)
    requires trades != []
    ensures Expectancy(trades) == WinRate(trades) * Average(trades, true) + (1.0 - WinRate(trades)) * Average(trades, false)
  {
    WinsAndLosses(trades);
    SplitMeans(Realised(Chosen(trades, true)), |Chosen(trades, true)|, Realised(Chosen(trades, false)), |Chosen(trades, false)|);
  }

  lemma SplitMeans(won: real, wins: nat, lost: real, losses: nat)
    requires wins + losses > 0 && (wins == 0 ==> won == 0.0) && (losses == 0 ==> lost == 0.0)
    ensures var rate := Mean(wins as real, wins + losses);
      Mean(won + lost, wins + losses) == rate * Mean(won, wins) + (1.0 - rate) * Mean(lost, losses)
  {
    var n := wins + losses;
    MeanTimes(wins as real, n);
    MeanTimes(won + lost, n);
    MeanTimes(won, wins);
    MeanTimes(lost, losses);
    SplitBy(n as real, wins as real, Mean(won + lost, n), Mean(wins as real, n), Mean(won, wins), Mean(lost, losses));
  }

  lemma SplitBy(n: real, wins: real, mean: real, rate: real, win: real, loss: real)
    requires n > 0.0 && rate * n == wins && mean * n == win * wins + loss * (n - wins)
    ensures mean == rate * win + (1.0 - rate) * loss
  {
    var split := rate * win + (1.0 - rate) * loss;
    assert split * n == win * (rate * n) + loss * (n - rate * n);
    ScaleUp(mean, split, n);
    ScaleUp(split, mean, n);
  }

  /** The total return, in money, is what the trades made on average times their number. */
  ghost predicate ReturnFromTrades(r: Result)
    requires r.startingCash != 0.0
  {
    TotalReturn(r) * r.startingCash == Expectancy(r.trades) * |r.trades| as real
  }

  lemma ReturnOfSettled(r: Result)
    requires r.startingCash != 0.0 && Settled(r)
    ensures ReturnFromTrades(r)
  {
    MeanTimes(Realised(r.trades), |r.trades|);
    assert TotalReturn(r) * r.startingCash == (if r.equity == [] then 0.0 else r.equity[|r.equity| - 1] - r.startingCash);
  }

  lemma ReturnIsExpectancyTimesCount(bars: seq<Bar>, cfg: Setup)
    requires cfg.budget != 0.0
    ensures var r := Simulation(bars, cfg); r.startingCash == cfg.budget && ReturnFromTrades(r)
  {
    FinalEquity(bars, cfg);
    ReturnOfSettled(Simulation(bars, cfg));
  }
}
