/** A restart through the reconcile as it is written: when what it rebuilds of an exit adds up, in terms of
    what the venue and the rows hold at its reads. */
module RestartAttempt {
  import opened Wrappers
  import opened OptionBroker
  import opened OptionProtocol
  import opened NeverShort
  import opened ExitConservation
  import opened OpenRows
  import opened ThreadFrames
  import opened VenueMoves
  import opened Reconcile
  import opened ReconcileRefines
  import RestartReads
  import RestartLimits

  // ----- the venue between the reads

  lemma {:induction false} TradeOnward(b0: Broker, b: Broker, c: Contract, x: Option<OrderId>, fills: seq<Fill>)
    requires NoOpenBuy(b0, c) && RestartReads.TheExit(b0, c, x) && RestartReads.Onward(b0, b, c, x)
    ensures RestartReads.Onward(b, Trade(b, fills), c, x)
    decreases |fills|
  {
    if fills == [] {
      RestartReads.OnwardSelf(b, c, x);
    } else {
      var f := fills[0];
      var b' := b.Advance(f.id, f.n, f.avgPrice, f.status);
      RestartReads.AdvanceOnward(b0, b, c, x, f.id, f.n, f.avgPrice, f.status);
      RestartReads.OnwardOn(b0, b, b', c, x);
      TradeOnward(b0, b', c, x, fills[1..]);
      RestartReads.OnwardOn(b, b', Trade(b', fills[1..]), c, x);
    }
  }

  lemma {:induction false} TradeNeverShort(b: Broker, fills: seq<Fill>)
    requires b.NeverShort()
    ensures Trade(b, fills).NeverShort()
    decreases |fills|
  {
    if fills != [] {
      var f := fills[0];
      AdvanceMoves(b, f.id, f.n, f.avgPrice, f.status);
      TradeNeverShort(b.Advance(f.id, f.n, f.avgPrice, f.status), fills[1..]);
    }
  }

  // ----- what the attempt rebuilds of one contract

  /** The position of `c` can be rebuilt: from its open row, or from its symbol and average price. */
  ghost predicate Recoverable(a: Answers, cfg: Config, c: Contract)
    requires a.positions.Some? && a.trades.Some?
  {
    exists p :: p in a.positions.value && p.contract == c && EntryOf(a.trades.value, p, cfg).Some?
  }

  lemma EntryRebuilt(b: Broker, rows: seq<Row>, b2: Broker, t: Tracked, a: Answers, cfg: Config, c: Contract)
    requires ReadOf(State(b, FRESH, rows), b2, a) && SameMaps(FRESH, t)
    ensures var positions := Attempt(t, a, cfg).positions;
      && (c in positions <==> Recoverable(a, cfg, c))
      && (c in positions ==> positions[c].qty == b.Net(c) > 0)
      && (c in positions && TradeOf(a.trades.value, c).Some? ==> positions[c].entryPremium == TradeOf(a.trades.value, c).value.entryPremium)
  {
    var ps, trades := a.positions.value, a.trades.value;
    var positions := Attempt(t, a, cfg).positions;
    assert positions == Entries(map[], trades, ps, cfg);
    if c in positions {
      var k := EntriesFrom(trades, ps, cfg, c);
      EntriesExact(trades, ps, cfg, k);
      assert ps[k] in ps;
    }
    if p :| p in ps && p.contract == c && EntryOf(trades, p, cfg).Some? {
      var k :| 0 <= k < |ps| && ps[k] == p;
      EntriesExact(trades, ps, cfg, k);
    }
  }

  lemma OrdersRebuilt(b: Broker, rows: seq<Row>, b2: Broker, t: Tracked, a: Answers, cfg: Config, i: OrderId)
    requires ReadOf(State(b, FRESH, rows), b2, a) && SameMaps(FRESH, t)
    ensures var fills := Attempt(t, a, cfg).optionFills;
      && (i in fills ==> i in b2.orders && b2.orders[i].Open() && fills[i].contract == b2.orders[i].contract
                         && (fills[i].SellCtx? <==> b2.orders[i].side == Sell))
      && (b2.OpenSell(i) ==> i in fills)
  {
    var orders, trades := a.optionOrders.value, a.trades.value;
    var positions, fills := Attempt(t, a, cfg).positions, Attempt(t, a, cfg).optionFills;
    assert fills == OptionFills(map[], positions, trades, orders, cfg);
    if i in fills {
      var k := OptionFillsFrom(positions, trades, orders, cfg, i);
      OptionFillsExact(positions, trades, orders, cfg, k);
      assert Lists(orders[k], b2);
    }
    if b2.OpenSell(i) {
      assert i in OpenOrders(b2);
      var o :| o in orders && o.id == i;
      var k :| 0 <= k < |orders| && orders[k] == o;
      assert Lists(o, b2);
      OptionFillsExact(positions, trades, orders, cfg, k);
    }
  }

  // ----- when it adds up

  ghost predicate NoneSelling(b: Broker, c: Contract) {
    forall i :: b.OpenSell(i) ==> b.orders[i].contract != c
  }

  /** The open SELL had filled nothing at the position read, if it is still open when the orders are
      listed; if not, it filled nothing in between. */
  ghost predicate SoldInView(b: Broker, b2: Broker, i: OrderId) {
    if b2.OpenSell(i) then RestartReads.Sold(b, Some(i)) == 0
    else RestartReads.Sold(b, Some(i)) == RestartReads.Sold(b2, Some(i))
  }

  /** `b` is the venue at the position read and `b2` at the fetch of the orders. */
  ghost predicate AddsUp(b: Broker, b2: Broker, c: Contract, recoverable: bool) {
    if b.Net(c) > 0 && !recoverable then b2.Net(c) == 0 && NoneSelling(b2, c)
    else forall i :: b.OpenSell(i) && b.orders[i].contract == c ==> SoldInView(b, b2, i)
  }

  /** What the attempt leaves of `c` in the option maps, in terms of the two venues. */
  ghost predicate Rebuilt(b: Broker, b2: Broker, positions: Positions, pending: Pending, c: Contract, recoverable: bool) {
    && (c in positions <==> recoverable)
    && (c in positions ==> positions[c].qty == b.Net(c) > 0)
    && (forall i :: ExitOf(pending, map[], c, i) <==> b2.OpenSell(i) && b2.orders[i].contract == c)
  }

  lemma AttemptRebuilds(b: Broker, rows: seq<Row>, b2: Broker, t: Tracked, a: Answers, cfg: Config, c: Contract)
    requires ReadOf(State(b, FRESH, rows), b2, a) && SameMaps(FRESH, t)
    ensures Rebuilt(b, b2, Attempt(t, a, cfg).positions, Attempt(t, a, cfg).optionFills, c, Recoverable(a, cfg, c))
  {
    EntryRebuilt(b, rows, b2, t, a, cfg, c);
    forall i ensures ExitOf(Attempt(t, a, cfg).optionFills, map[], c, i) <==> b2.OpenSell(i) && b2.orders[i].contract == c {
      OrdersRebuilt(b, rows, b2, t, a, cfg, i);
    }
  }

  lemma SellerKnown(b: Broker, b2: Broker, c: Contract, x: Option<OrderId>)
    requires RestartReads.TheExit(b, c, x) && RestartReads.Onward(b, b2, c, x)
    ensures forall i :: b2.OpenSell(i) && b2.orders[i].contract == c ==> x == Some(i)
    ensures x.Some? ==> x.value in b2.orders && b2.orders[x.value].side == Sell && b2.orders[x.value].contract == c
    ensures x.Some? && !b2.OpenSell(x.value) ==> !b2.orders[x.value].Open()
  {
    forall i | b2.OpenSell(i) && b2.orders[i].contract == c ensures x == Some(i) {
      assert Earlier(b2, i, b.orders[i]);
      assert b.OpenSell(i);
    }
    if x.Some? {
      assert b.OpenSell(x.value) && Earlier(b2, x.value, b.orders[x.value]);
    }
  }

  /** With the exit order still open, or without one. */
  lemma BalancedAdds(b2: Broker, positions: Positions, pending: Pending, c: Contract, x: Option<OrderId>)
    requires forall i :: ExitOf(pending, map[], c, i) <==> x == Some(i) && b2.OpenSell(i)
    requires c in positions ==> positions[c].qty > 0
    ensures Balanced(b2, positions, pending, map[], c)
      <==> ExitConservation.Tracked(positions, c) == b2.Net(c) + (if x.Some? && b2.OpenSell(x.value) then RestartReads.Sold(b2, x) else 0)
  {
    if x.Some? && b2.OpenSell(x.value) {
      assert ExitOf(pending, map[], c, x.value);
    } else {
      assert forall i :: !ExitOf(pending, map[], c, i);
    }
  }

  lemma AddsUpIff(b: Broker, b2: Broker, c: Contract, x: Option<OrderId>, recoverable: bool)
    requires b.Net(c) >= 0 && b2.Net(c) >= 0 && RestartReads.TheExit(b, c, x) && RestartReads.Onward(b, b2, c, x)
    requires forall i :: b2.OpenSell(i) && b2.orders[i].contract == c ==> x == Some(i)
    requires x.Some? ==> x.value in b2.orders && b2.orders[x.value].side == Sell && b2.orders[x.value].contract == c
    requires recoverable ==> b.Net(c) > 0
    ensures AddsUp(b, b2, c, recoverable)
      <==> (if recoverable then b.Net(c) else 0) == b2.Net(c) + (if x.Some? && b2.OpenSell(x.value) then RestartReads.Sold(b2, x) else 0)
  {
    assert NoneSelling(b2, c) <==> !(x.Some? && b2.OpenSell(x.value));
    if x.Some? {
      assert b.OpenSell(x.value);
      assert AddsUp(b, b2, c, recoverable) <==> if b.Net(c) > 0 && !recoverable then b2.Net(c) == 0 && NoneSelling(b2, c) else SoldInView(b, b2, x.value);
    }
  }

  lemma RebuiltBalancedIff(b: Broker, b2: Broker, positions: Positions, pending: Pending, c: Contract, x: Option<OrderId>, recoverable: bool)
    requires b.NeverShort() && b2.NeverShort() && RestartReads.TheExit(b, c, x) && RestartReads.Onward(b, b2, c, x)
    requires Rebuilt(b, b2, positions, pending, c, recoverable)
    ensures Balanced(b2, positions, pending, map[], c) <==> AddsUp(b, b2, c, recoverable)
  {
    SellerKnown(b, b2, c, x);
    assert b.Net(c) >= 0 && b2.Net(c) >= 0;
    BalancedAdds(b2, positions, pending, c, x);
    AddsUpIff(b, b2, c, x, recoverable);
  }

  /** The main result, for the quantity: with the BUYs of `c` over, or the venue at rest, what a restart
      through the code's own reconcile tracks accounts for the exit exactly when the position could be
      rebuilt and its open SELL's sales are in view, or else nothing is left of it. */
  lemma FreshAttemptBalancedIff(b: Broker, rows: seq<Row>, t: Tracked, a: Answers, cfg: Config, fills: seq<Fill>, c: Contract)
    requires b.NeverShort() && (NoOpenBuy(b, c) || fills == []) && ReadOf(State(b, FRESH, rows), Trade(b, fills), a) && SameMaps(FRESH, t)
    ensures var t' := Attempt(t, a, cfg); var b2 := Trade(b, fills);
      Balanced(b2, t'.positions, t'.optionFills, map[], c) <==> AddsUp(b, b2, c, Recoverable(a, cfg, c))
  {
    var x := RestartLimits.ExitExists(b, c);
    RestartReads.OnwardSelf(b, c, x);
    if fills != [] {
      TradeOnward(b, b, c, x, fills);
    }
    TradeNeverShort(b, fills);
    AttemptRebuilds(b, rows, Trade(b, fills), t, a, cfg, c);
    RebuiltBalancedIff(b, Trade(b, fills), Attempt(t, a, cfg).positions, Attempt(t, a, cfg).optionFills, c, x, Recoverable(a, cfg, c));
  }

  // ----- the rows

  function OpenQuantities(rows: seq<Row>, c: Contract): seq<nat> {
    if rows == [] then []
    else
      var earlier, last := OpenQuantities(rows[..|rows| - 1], c), rows[|rows| - 1];
      if last.OpenFor(c) then earlier + [last.qty] else earlier
  }

  lemma {:induction false} RowsAndTrades(rows: seq<Row>, c: Contract)
    ensures |OpenQuantities(rows, c)| == |OpenRowsOf(rows, c)|
    ensures forall k :: 0 <= k < |OpenRowsOf(rows, c)| ==> OpenQuantities(rows, c)[k] == OpenRowsOf(rows, c)[k].1
    ensures OpenRowsOf(rows, c) == [] <==> TradeOf(OpenTrades(rows), c).None?
    ensures var list := OpenRowsOf(rows, c);
      list != [] ==> TradeOf(OpenTrades(rows), c).Some? && TradeOf(OpenTrades(rows), c).value.entryPremium == list[|list| - 1].0
  {
    if rows != [] {
      var init, last := rows[..|rows| - 1], rows[|rows| - 1];
      RowsAndTrades(init, c);
      if last.exit.None? {
        assert OpenTrades(rows)[..|OpenTrades(init)|] == OpenTrades(init);
      }
    }
  }

  /** One open row, of the quantity the venue holds, for a position that can be rebuilt; none otherwise. */
  ghost predicate RowsFit(rows: seq<Row>, b: Broker, c: Contract, recoverable: bool) {
    OpenQuantities(rows, c) == if recoverable && b.Net(c) > 0 then [b.Net(c)] else []
  }

  lemma RowsMatchIffFit(b: Broker, rows: seq<Row>, b2: Broker, t: Tracked, a: Answers, cfg: Config, c: Contract)
    requires ReadOf(State(b, FRESH, rows), b2, a) && SameMaps(FRESH, t)
    ensures RowsMatch(rows, c, Attempt(t, a, cfg).positions) <==> RowsFit(rows, b, c, Recoverable(a, cfg, c))
  {
    var positions, list := Attempt(t, a, cfg).positions, OpenRowsOf(rows, c);
    EntryRebuilt(b, rows, b2, t, a, cfg, c);
    RowsMatchIff(rows, c, positions);
    RowsAndTrades(rows, c);
    if c in positions && OpenQuantities(rows, c) == [b.Net(c)] {
      assert list == [(positions[c].entryPremium, positions[c].qty)];
    }
  }

  lemma NoBuysRebuilt(b: Broker, rows: seq<Row>, b2: Broker, t: Tracked, a: Answers, cfg: Config, c: Contract, x: Option<OrderId>)
    requires ReadOf(State(b, FRESH, rows), b2, a) && SameMaps(FRESH, t)
    requires NoOpenBuy(b, c) && RestartReads.TheExit(b, c, x) && RestartReads.Onward(b, b2, c, x)
    ensures NoOpenBuy(b2, c) && BuysPending(Attempt(t, a, cfg).optionFills, c) == {}
  {
    var fills := Attempt(t, a, cfg).optionFills;
    forall i | i in b2.orders && b2.orders[i].side == Buy && b2.orders[i].contract == c ensures !b2.orders[i].Open() {
      if b2.orders[i].Open() { RestartReads.OnlyExitOpen(b, b2, c, x, i); }
    }
    forall i | i in fills ensures !(fills[i].BuyCtx? && fills[i].contract == c) {
      OrdersRebuilt(b, rows, b2, t, a, cfg, i);
    }
  }

  /** The state at the end of the attempt, by the steps it is a run of. */
  function Restarted(b: Broker, rows: seq<Row>, a: Answers, cfg: Config, fills: seq<Fill>): State
    requires Complete(a)
  {
    Run(State(b, FRESH, rows), AttemptSteps(a, cfg, fills))
  }

  /** The main result, for the whole exit: quantity, exit order and row agree again exactly when the
      quantity adds up and the open rows are what the venue held at the position read. */
  lemma FreshAttemptExitIff(b: Broker, rows: seq<Row>, t: Tracked, a: Answers, cfg: Config, fills: seq<Fill>, c: Contract)
    requires b.NeverShort() && NoOpenBuy(b, c) && ReadOf(State(b, FRESH, rows), Trade(b, fills), a) && SameMaps(FRESH, t)
    ensures ExitInv(Restarted(b, rows, a, cfg, fills), c)
      <==> AddsUp(b, Trade(b, fills), c, Recoverable(a, cfg, c)) && RowsFit(rows, b, c, Recoverable(a, cfg, c))
  {
    var b2 := Trade(b, fills);
    var x := RestartLimits.ExitExists(b, c);
    RestartReads.OnwardSelf(b, c, x);
    TradeOnward(b, b, c, x, fills);
    CompleteAttemptIsRun(State(b, FRESH, rows), t, a, cfg, fills);
    FreshAttemptBalancedIff(b, rows, t, a, cfg, fills, c);
    RowsMatchIffFit(b, rows, b2, t, a, cfg, c);
    NoBuysRebuilt(b, rows, b2, t, a, cfg, c, x);
    AttemptRebuilds(b, rows, b2, t, a, cfg, c);
    SellerKnown(b, b2, c, x);
  }

  // ----- a crash in the middle of a balanced exit

  /** What the tracked quantity of a balanced exit amounts to. */
  lemma ExitTracks(s: State, c: Contract, i: OrderId)
    requires Inv(s) && ExitInv(s, c) && RowsMatch(s.rows, c, s.p.positions) && s.b.OpenSell(i) && s.b.orders[i].contract == c
    ensures var held := s.b.Net(c) + s.b.orders[i].filled;
      && ExitConservation.Tracked(s.p.positions, c) == held
      && OpenQuantities(s.rows, c) == (if held > 0 then [held] else [])
      && (held > 0 ==> TradeOf(OpenTrades(s.rows), c).Some? && TradeOf(OpenTrades(s.rows), c).value.entryPremium == s.p.positions[c].entryPremium)
  {
    assert Watched(i, c, s.p.pending, s.p.sells, s.p.recon);
    assert i in s.p.pending ==> Names(s.b, i, s.p.pending[i]);
    assert ExitOf(s.p.pending, s.p.sells, c, i);
    RowsMatchIff(s.rows, c, s.p.positions);
    RowsAndTrades(s.rows, c);
  }

  lemma SoldSoFar(b0: Broker, b: Broker, b2: Broker, c: Contract, i: OrderId)
    requires b0.NeverShort() && b.NeverShort() && b2.NeverShort() && b0.OpenSell(i) && b0.orders[i].contract == c
    requires RestartReads.Onward(b0, b, c, Some(i)) && RestartReads.Onward(b, b2, c, Some(i))
    ensures RestartReads.Sold(b, Some(i)) <= RestartReads.Sold(b2, Some(i))
    ensures !b.OpenSell(i) ==> !b2.OpenSell(i) && RestartReads.Sold(b, Some(i)) == RestartReads.Sold(b2, Some(i))
    ensures forall j :: b.OpenSell(j) && b.orders[j].contract == c ==> j == i
    ensures i in b.orders && b.orders[i].contract == c && b.orders[i].side == Sell
  {
    assert Earlier(b, i, b0.orders[i]) && Earlier(b2, i, b.orders[i]);
    forall j | b.OpenSell(j) && b.orders[j].contract == c ensures j == i {
      assert Earlier(b, j, b0.orders[j]);
      assert b0.OpenSell(j);
    }
  }

  lemma CrashAddsUp(s: State, c: Contract, i: OrderId, b: Broker, b2: Broker, recoverable: bool)
    requires s.b.NeverShort() && b.NeverShort() && b2.NeverShort() && s.b.OpenSell(i) && s.b.orders[i].contract == c
    requires RestartReads.Onward(s.b, b, c, Some(i)) && RestartReads.Onward(b, b2, c, Some(i))
    requires var held := s.b.Net(c) + s.b.orders[i].filled; OpenQuantities(s.rows, c) == if held > 0 then [held] else []
    requires recoverable <==> b.Net(c) > 0
    ensures AddsUp(b, b2, c, recoverable) && RowsFit(s.rows, b, c, recoverable)
      <==> RestartReads.Sold(b, Some(i)) == 0 && (b2.OpenSell(i) || RestartReads.Sold(b2, Some(i)) == 0)
  {
    SoldSoFar(s.b, b, b2, c, i);
    assert b.Net(c) >= 0 && b2.Net(c) >= 0;
    assert b.OpenSell(i) ==> (AddsUp(b, b2, c, recoverable) <==> SoldInView(b, b2, i));
  }

  lemma NoBuyOpens(b0: Broker, b: Broker, c: Contract, x: Option<OrderId>)
    requires NoOpenBuy(b0, c) && RestartReads.TheExit(b0, c, x) && RestartReads.Onward(b0, b, c, x)
    ensures NoOpenBuy(b, c)
  {
    forall j | j in b.orders && b.orders[j].side == Buy && b.orders[j].contract == c ensures !b.orders[j].Open() {
      if b.orders[j].Open() { RestartReads.OnlyExitOpen(b0, b, c, x, j); }
    }
  }

  /** A position with an open row can be rebuilt. */
  lemma HeldIsRecoverable(b: Broker, rows: seq<Row>, b2: Broker, a: Answers, cfg: Config, c: Contract)
    requires ReadOf(State(b, FRESH, rows), b2, a) && b.Net(c) > 0 ==> TradeOf(OpenTrades(rows), c).Some?
    requires ReadOf(State(b, FRESH, rows), b2, a)
    ensures b.Net(c) > 0 ==> Recoverable(a, cfg, c)
  {
    if b.Net(c) > 0 {
      assert c in HeldContracts(b);
      var p :| p in a.positions.value && p.class_ == OptionContract && p.contract == c;
      assert EntryOf(a.trades.value, p, cfg).Some?;
    }
  }

  lemma CrashRuns(s: State, before: seq<Fill>, t: Tracked, a: Answers, cfg: Config, fills: seq<Fill>)
    requires var b := Trade(s.b, before); ReadOf(State(b, FRESH, s.rows), Trade(b, fills), a) && SameMaps(FRESH, t)
    ensures var r := Restarted(Trade(s.b, before), s.rows, a, cfg, fills);
      && Run(Apply(s, Crash), Moves(before) + AttemptSteps(a, cfg, fills)) == r
      && r.p.positions == Attempt(t, a, cfg).positions && r.rows == s.rows
  {
    MovesTrade(Apply(s, Crash), before);
    RunAppend(Apply(s, Crash), Moves(before), AttemptSteps(a, cfg, fills));
    CompleteAttemptIsRun(State(Trade(s.b, before), FRESH, s.rows), t, a, cfg, fills);
  }

  /** Where the venue of a balanced exit may have gone by the two reads of the restart. */
  lemma CrashVenues(s: State, c: Contract, i: OrderId, before: seq<Fill>, fills: seq<Fill>)
    requires Inv(s) && ExitInv(s, c) && s.b.OpenSell(i) && s.b.orders[i].contract == c
    ensures var b := Trade(s.b, before); var b2 := Trade(b, fills);
      && b.NeverShort() && b2.NeverShort() && NoOpenBuy(b, c)
      && RestartReads.Onward(s.b, b, c, Some(i)) && RestartReads.Onward(b, b2, c, Some(i))
  {
    var b := Trade(s.b, before);
    RestartReads.OnwardSelf(s.b, c, Some(i));
    TradeOnward(s.b, s.b, c, Some(i), before);
    TradeOnward(s.b, b, c, Some(i), fills);
    TradeNeverShort(s.b, before);
    TradeNeverShort(b, fills);
    NoBuyOpens(s.b, b, c, Some(i));
  }

  /** The rebuilt entry is what the venue holds at the read, under the premium of the open row. */
  lemma CrashEntry(s: State, c: Contract, i: OrderId, b: Broker, b2: Broker, t: Tracked, a: Answers, cfg: Config)
    requires Inv(s) && ExitInv(s, c) && RowsMatch(s.rows, c, s.p.positions) && s.b.OpenSell(i) && s.b.orders[i].contract == c
    requires ReadOf(State(b, FRESH, s.rows), b2, a) && SameMaps(FRESH, t) && b.NeverShort() && RestartReads.Onward(s.b, b, c, Some(i))
    ensures var positions := Attempt(t, a, cfg).positions;
      && (Recoverable(a, cfg, c) <==> b.Net(c) > 0) && ExitConservation.Tracked(positions, c) == b.Net(c)
      && (c in positions ==> c in s.p.positions && positions[c].entryPremium == s.p.positions[c].entryPremium)
  {
    ExitTracks(s, c, i);
    assert b.Net(c) >= 0;
    HeldIsRecoverable(b, s.rows, b2, a, cfg, c);
    EntryRebuilt(b, s.rows, b2, t, a, cfg, c);
  }

  /** The process dies in the middle of a balanced exit, the venue moves on, and the process restarts
      through its own reconcile. The entry is what the venue holds at the position read, under the old
      premium; the open row still carries what was tracked. Entry, row and exit agree again exactly
      when the exit order has sold nothing by the position read, and nothing that the list of open
      orders then misses. */
  lemma CrashDuringExit(s: State, c: Contract, i: OrderId, before: seq<Fill>, t: Tracked, a: Answers, cfg: Config, fills: seq<Fill>)
    requires Inv(s) && ExitInv(s, c) && RowsMatch(s.rows, c, s.p.positions) && s.b.OpenSell(i) && s.b.orders[i].contract == c
    requires var b := Trade(s.b, before); ReadOf(State(b, FRESH, s.rows), Trade(b, fills), a) && SameMaps(FRESH, t)
    ensures var b := Trade(s.b, before); var b2 := Trade(b, fills); var held := s.b.Net(c) + s.b.orders[i].filled;
      var r := Run(Apply(s, Crash), Moves(before) + AttemptSteps(a, cfg, fills));
      && ExitConservation.Tracked(r.p.positions, c) == b.Net(c)
      && (c in r.p.positions ==> c in s.p.positions && r.p.positions[c].entryPremium == s.p.positions[c].entryPremium)
      && OpenQuantities(r.rows, c) == (if held > 0 then [held] else [])
      && (ExitInv(r, c) <==> RestartReads.Sold(b, Some(i)) == 0 && (b2.OpenSell(i) || RestartReads.Sold(b2, Some(i)) == 0))
  {
    var b := Trade(s.b, before);
    var b2 := Trade(b, fills);
    ExitTracks(s, c, i);
    CrashVenues(s, c, i, before, fills);
    CrashEntry(s, c, i, b, b2, t, a, cfg);
    CrashAddsUp(s, c, i, b, b2, Recoverable(a, cfg, c));
    FreshAttemptExitIff(b, s.rows, t, a, cfg, fills, c);
    CrashRuns(s, before, t, a, cfg, fills);
  }
}
