/** A failed attempt to reconcile does not always leave the tracked state as it was: what it had rebuilt
    before the failing read stays. Exactly when it changes nothing, for every state and every way to
    fail, and that it may change something. */
module FailedAttempts {
  import opened Wrappers
  import opened OptionBroker
  import opened OptionProtocol
  import opened Reconcile

  // ----- what the open orders would write, element by element

  /** Element `k` is the last one to write a pending fill under its id. */
  ghost predicate WritesFill(orders: seq<OpenOrder>, k: nat) {
    && k < |orders| && FillOf(orders[k]).Some?
    && forall j :: k < j < |orders| && orders[j].id == orders[k].id ==> FillOf(orders[j]).None?
  }

  ghost predicate WritesBracket(orders: seq<OpenOrder>, k: nat) {
    && k < |orders| && BracketOf(orders[k]).Some?
    && forall j :: k < j < |orders| && orders[j].symbol == orders[k].symbol ==> BracketOf(orders[j]).None?
  }

  lemma {:induction false} FillsWrittenBy(orders: seq<OpenOrder>, id: OrderId) returns (k: nat)
    requires id in Fills(map[], orders)
    ensures WritesFill(orders, k) && orders[k].id == id && Fills(map[], orders)[id] == FillOf(orders[k]).value
    decreases |orders|
  {
    var n := |orders| - 1;
    if orders[n].id == id && FillOf(orders[n]).Some? {
      k := n;
    } else {
      k := FillsWrittenBy(orders[..n], id);
    }
  }

  lemma {:induction false} FillIsWritten(orders: seq<OpenOrder>, k: nat)
    requires WritesFill(orders, k)
    ensures orders[k].id in Fills(map[], orders) && Fills(map[], orders)[orders[k].id] == FillOf(orders[k]).value
    decreases |orders|
  {
    var n := |orders| - 1;
    if k < n {
      assert WritesFill(orders[..n], k);
      FillIsWritten(orders[..n], k);
    }
  }

  lemma {:induction false} BracketsWrittenBy(orders: seq<OpenOrder>, s: Symbol) returns (k: nat)
    requires s in Brackets(map[], orders)
    ensures WritesBracket(orders, k) && orders[k].symbol == s && Brackets(map[], orders)[s] == BracketOf(orders[k]).value
    decreases |orders|
  {
    var n := |orders| - 1;
    if orders[n].symbol == s && BracketOf(orders[n]).Some? {
      k := n;
    } else {
      k := BracketsWrittenBy(orders[..n], s);
    }
  }

  lemma {:induction false} BracketIsWritten(orders: seq<OpenOrder>, k: nat)
    requires WritesBracket(orders, k)
    ensures orders[k].symbol in Brackets(map[], orders) && Brackets(map[], orders)[orders[k].symbol] == BracketOf(orders[k]).value
    decreases |orders|
  {
    var n := |orders| - 1;
    if k < n {
      assert WritesBracket(orders[..n], k);
      BracketIsWritten(orders[..n], k);
    }
  }

  ghost predicate Holds<K, V>(m: map<K, V>, k: K, v: V) {
    k in m && m[k] == v
  }

  lemma MergeIsNothing<K, V>(m: map<K, V>, w: map<K, V>)
    ensures m + w == m <==> forall k :: k in w ==> Holds(m, k, w[k])
  {
    if m + w == m {
      forall k | k in w ensures Holds(m, k, w[k]) {
        assert (m + w)[k] == w[k];
      }
    }
  }

  /** Every fill and bracket the listed orders call for is tracked already, just so. */
  ghost predicate OrdersTracked(t: Tracked, orders: seq<OpenOrder>) {
    && (forall k: nat :: WritesFill(orders, k) ==> Holds(t.fills, orders[k].id, FillOf(orders[k]).value))
    && (forall k: nat :: WritesBracket(orders, k) ==> Holds(t.brackets, orders[k].symbol, BracketOf(orders[k]).value))
  }

  lemma FillsUnchangedIff(m: map<OrderId, PendingFill>, orders: seq<OpenOrder>)
    ensures Fills(m, orders) == m <==> forall k: nat :: WritesFill(orders, k) ==> Holds(m, orders[k].id, FillOf(orders[k]).value)
  {
    var w := Fills(map[], orders);
    FillsWrites(m, orders);
    MergeIsNothing(m, w);
    forall k: nat | WritesFill(orders, k) ensures Holds(w, orders[k].id, FillOf(orders[k]).value) {
      FillIsWritten(orders, k);
    }
    if forall k: nat :: WritesFill(orders, k) ==> Holds(m, orders[k].id, FillOf(orders[k]).value) {
      forall id | id in w ensures Holds(m, id, w[id]) {
        var k := FillsWrittenBy(orders, id);
      }
    }
  }

  lemma BracketsUnchangedIff(m: map<Symbol, OrderId>, orders: seq<OpenOrder>)
    ensures Brackets(m, orders) == m
      <==> forall k: nat :: WritesBracket(orders, k) ==> Holds(m, orders[k].symbol, BracketOf(orders[k]).value)
  {
    var w := Brackets(map[], orders);
    BracketsWrites(m, orders);
    MergeIsNothing(m, w);
    forall k: nat | WritesBracket(orders, k) ensures Holds(w, orders[k].symbol, BracketOf(orders[k]).value) {
      BracketIsWritten(orders, k);
    }
    if forall k: nat :: WritesBracket(orders, k) ==> Holds(m, orders[k].symbol, BracketOf(orders[k]).value) {
      forall s | s in w ensures Holds(m, s, w[s]) {
        var k := BracketsWrittenBy(orders, s);
      }
    }
  }

  // ----- what the positions would write

  lemma {:induction false} StopsCover(m: map<Symbol, (real, real)>, fills: map<OrderId, PendingFill>, ps: seq<VenuePosition>,
                                      cfg: Config, k: nat)
    requires k < |ps| && StopOf(fills, ps[k], cfg).Some?
    ensures ps[k].symbol in Stops(m, fills, ps, cfg)
    decreases |ps|
  {
    if k < |ps| - 1 {
      StopsCover(m, fills, ps[..|ps| - 1], cfg, k);
    }
  }

  /** Every stop the positions call for is there already. */
  ghost predicate StopsTracked(t: Tracked, ps: seq<VenuePosition>, cfg: Config) {
    forall k :: 0 <= k < |ps| && StopOf(t.fills, ps[k], cfg).Some? ==> ps[k].symbol in t.stops
  }

  lemma {:induction false} NoNewStops(t: Tracked, ps: seq<VenuePosition>, cfg: Config)
    requires StopsTracked(t, ps, cfg)
    ensures Stops(t.stops, t.fills, ps, cfg) == t.stops
    decreases |ps|
  {
    if ps != [] {
      NoNewStops(t, ps[..|ps| - 1], cfg);
    }
  }

  lemma StopsUnchangedIff(t: Tracked, ps: seq<VenuePosition>, cfg: Config)
    ensures Stops(t.stops, t.fills, ps, cfg) == t.stops <==> StopsTracked(t, ps, cfg)
  {
    if StopsTracked(t, ps, cfg) {
      NoNewStops(t, ps, cfg);
    }
    forall k: nat | k < |ps| && StopOf(t.fills, ps[k], cfg).Some? ensures ps[k].symbol in Stops(t.stops, t.fills, ps, cfg) {
      StopsCover(t.stops, t.fills, ps, cfg, k);
    }
  }

  /** Every recoverable option position is tracked already. */
  ghost predicate EntriesTracked(t: Tracked, trades: seq<OpenTrade>, ps: seq<VenuePosition>, cfg: Config) {
    forall k :: 0 <= k < |ps| && EntryOf(trades, ps[k], cfg).Some? ==> ps[k].contract in t.positions
  }

  lemma {:induction false} NoNewEntries(t: Tracked, trades: seq<OpenTrade>, ps: seq<VenuePosition>, cfg: Config)
    requires EntriesTracked(t, trades, ps, cfg)
    ensures Entries(t.positions, trades, ps, cfg) == t.positions
    decreases |ps|
  {
    if ps != [] {
      NoNewEntries(t, trades, ps[..|ps| - 1], cfg);
    }
  }

  lemma EntriesUnchangedIff(t: Tracked, trades: seq<OpenTrade>, ps: seq<VenuePosition>, cfg: Config)
    ensures Entries(t.positions, trades, ps, cfg) == t.positions <==> EntriesTracked(t, trades, ps, cfg)
  {
    if EntriesTracked(t, trades, ps, cfg) {
      NoNewEntries(t, trades, ps, cfg);
    }
    forall k: nat | k < |ps| && EntryOf(trades, ps[k], cfg).Some? ensures ps[k].contract in Entries(t.positions, trades, ps, cfg) {
      EntriesCover(t.positions, trades, ps, cfg, k);
    }
  }

  ghost predicate OpensTracked(t: Tracked, ps: seq<VenuePosition>) {
    forall p :: p in ps && p.class_ != OptionContract ==> p.symbol in t.opens
  }

  lemma OpensUnchangedIff(t: Tracked, ps: seq<VenuePosition>)
    ensures Opens(t.opens, ps) == t.opens <==> OpensTracked(t, ps)
  {
    if Opens(t.opens, ps) == t.opens {
      forall p | p in ps && p.class_ != OptionContract ensures p.symbol in t.opens {
        assert p.symbol in Opens(t.opens, ps);
      }
    }
  }

  // ----- the failed attempt

  lemma OrdersUnchangedIff(t: Tracked, orders: seq<OpenOrder>)
    ensures RebuildOrders(t, orders) == t <==> OrdersTracked(t, orders)
  {
    FillsUnchangedIff(t.fills, orders);
    BracketsUnchangedIff(t.brackets, orders);
  }

  ghost predicate PositionsTracked(t: Tracked, ps: seq<VenuePosition>, trades: seq<OpenTrade>, a: Answers, cfg: Config) {
    && StopsTracked(t, Upto(ps, a.cryptoRaises), cfg)
    && OpensTracked(t, ps)
    && EntriesTracked(t, trades, Upto(ps, a.rebuildRaises), cfg)
  }

  lemma PositionsUnchangedIff(t: Tracked, ps: seq<VenuePosition>, trades: seq<OpenTrade>, a: Answers, cfg: Config)
    ensures RebuildPositions(t, ps, trades, a, cfg) == t <==> PositionsTracked(t, ps, trades, a, cfg)
  {
    StopsUnchangedIff(t, Upto(ps, a.cryptoRaises), cfg);
    OpensUnchangedIff(t, ps);
    EntriesUnchangedIff(t, trades, Upto(ps, a.rebuildRaises), cfg);
  }

  /** The two rebuilds write different fields, so neither undoes the other. */
  lemma BothUnchanged(t: Tracked, orders: seq<OpenOrder>, ps: seq<VenuePosition>, trades: seq<OpenTrade>, a: Answers, cfg: Config)
    ensures RebuildPositions(RebuildOrders(t, orders), ps, trades, a, cfg) == t
      <==> RebuildOrders(t, orders) == t && RebuildPositions(t, ps, trades, a, cfg) == t
  {
    var t1 := RebuildOrders(t, orders);
    if RebuildPositions(t1, ps, trades, a, cfg) == t {
      assert t1.fills == t.fills && t1.brackets == t.brackets;
      assert t1 == t;
    }
  }

  /** Nothing that the attempt gets to handle before it fails is missing from the tracked state. */
  ghost predicate NothingNew(t: Tracked, a: Answers, cfg: Config) {
    a.orders.Some? ==>
      && OrdersTracked(t, a.orders.value)
      && (a.positions.Some? && a.trades.Some? ==> PositionsTracked(t, a.positions.value, a.trades.value, a, cfg))
  }

  /** The main result: for every state and every way to fail, the attempt leaves the state untouched
      exactly when there was nothing new in what it read first. */
  lemma FailedAttemptKeepsIff(t: Tracked, a: Answers, cfg: Config)
    requires !Complete(a)
    ensures Attempt(t, a, cfg) == t <==> NothingNew(t, a, cfg)
    ensures Attempt(t, a, cfg).reconciled == t.reconciled && Attempt(t, a, cfg).optionFills == t.optionFills
  {
    if a.orders.Some? {
      OrdersUnchangedIff(t, a.orders.value);
      if a.positions.Some? && a.trades.Some? {
        BothUnchanged(t, a.orders.value, a.positions.value, a.trades.value, a, cfg);
        PositionsUnchangedIff(t, a.positions.value, a.trades.value, a, cfg);
      }
    }
  }

  /** For a process that tracks nothing yet and cannot read the positions: no listed order may call for a
      bracket or a pending fill. */
  lemma FreshFailureKeepsIff(a: Answers, cfg: Config, t: Tracked)
    requires a.orders.Some? && a.positions.None? && t.fills == map[] && t.brackets == map[]
    ensures Attempt(t, a, cfg) == t
      <==> forall k :: 0 <= k < |a.orders.value| ==> BracketOf(a.orders.value[k]).None? && FillOf(a.orders.value[k]).None?
  {
    var orders := a.orders.value;
    FailedAttemptKeepsIff(t, a, cfg);
    if k: nat :| k < |orders| && !(BracketOf(orders[k]).None? && FillOf(orders[k]).None?) {
      LastWrites(orders, k);
    }
  }

  lemma {:induction false} LastWrites(orders: seq<OpenOrder>, k: nat)
    requires k < |orders| && (BracketOf(orders[k]).Some? || FillOf(orders[k]).Some?)
    ensures exists j: nat :: WritesBracket(orders, j) || WritesFill(orders, j)
    decreases |orders| - k
  {
    if j: nat :| k < j < |orders| && (BracketOf(orders[j]).Some? || FillOf(orders[j]).Some?) {
      LastWrites(orders, j);
    } else if BracketOf(orders[k]).Some? {
      assert WritesBracket(orders, k);
    } else {
      assert WritesFill(orders, k);
    }
  }

  /** A stock order is open, and the positions cannot be read: the attempt fails, and yet the order is
      tracked now and was not before. */
  lemma FailedAttemptTracks(id: OrderId, c: Contract, cfg: Config)
    ensures var order := OpenOrder(id, "AAPL", c, Equity, Buy, 1, false, true, []);
      var a := Answers(Some([order]), None, None, None, None, None);
      var t := Tracked(map[], map[], map[], map[], map[], {}, false);
      && !Complete(a) && !Attempt(t, a, cfg).reconciled && id !in t.fills
      && Holds(Attempt(t, a, cfg).fills, id, PendingFill("AAPL", Buy, RECONSTRUCTED, None, None))
  {
    var order := OpenOrder(id, "AAPL", c, Equity, Buy, 1, false, true, []);
    assert [order][..0] == [];
    assert FillOf(order) == Some(PendingFill("AAPL", Buy, RECONSTRUCTED, None, None));
  }
}
