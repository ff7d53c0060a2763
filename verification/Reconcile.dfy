/** The state shared by the stock, crypto and option paths: reconcile_tracked_state_once rebuilds every
    tracked map from one venue and database snapshot, and buy adds what it submits. Any read or
    rebuild may fail and end an attempt early; what an early end leaves behind never changes what a
    later success arrives at. */
module Reconcile {
  import opened Wrappers
  import opened OptionBroker
  import opened OptionProtocol
  import BracketOrders

  type Symbol = string

  datatype AssetClass = Equity | Crypto | OptionContract

  /** An order the venue lists as open. `legs` says of each bracket leg whether it is still live;
      `live` is false for the no-fill terminal statuses; `symbol` is already canonical. */
  datatype OpenOrder = OpenOrder(id: OrderId, symbol: Symbol, contract: Contract, class_: AssetClass, side: Side, qty: nat,
                                 anyFill: bool, live: bool, legs: seq<bool>)

  datatype VenuePosition = VenuePosition(symbol: Symbol, contract: Contract, class_: AssetClass, qty: int, long: bool,
                                         avgEntry: Option<real>, current: Option<real>)

  datatype OpenTrade = OpenTrade(contract: Contract, terms: Terms, entryPremium: real)

  /** What the four reads of one attempt answer; None is an error. The crypto step and the option
      rebuild may raise on malformed data, after so many of the positions. */
  datatype Answers = Answers(orders: Option<seq<OpenOrder>>, positions: Option<seq<VenuePosition>>,
                             trades: Option<seq<OpenTrade>>, optionOrders: Option<seq<OpenOrder>>,
                             cryptoRaises: Option<nat>, rebuildRaises: Option<nat>)

  /** `legs` are the stop and target prices of a bracket, `levels` the fractions a crypto fill will be
      given; a reconstructed entry has neither. */
  datatype PendingFill = PendingFill(symbol: Symbol, side: Side, reason: string, legs: Option<(real, real)>, levels: Option<(real, real)>)

  /** The tracked maps, the flag, and the position_opens table the attempt back-fills. */
  datatype Tracked = Tracked(
    fills: map<OrderId, PendingFill>,
    brackets: map<Symbol, OrderId>,
    stops: map<Symbol, (real, real)>,
    positions: map<Contract, Position>,
    optionFills: map<OrderId, Ctx>,
    opens: set<Symbol>,
    reconciled: bool)

  /** Config: the crypto stop and target fractions, and the contract-symbol parser. */
  datatype Config = Config(slP: real, tpP: real, parse: Contract -> Option<Terms>)

  const RECONSTRUCTED := "reconstructed_after_restart"

  // ----- what each element contributes

  function BracketOf(o: OpenOrder): Option<OrderId> {
    if o.class_ != OptionContract && o.legs != [] && (exists k :: 0 <= k < |o.legs| && o.legs[k]) then Some(o.id) else None
  }

  function FillOf(o: OpenOrder): Option<PendingFill> {
    if o.class_ != OptionContract && o.legs == [] && !o.anyFill && o.live then Some(PendingFill(o.symbol, o.side, RECONSTRUCTED, None, None)) else None
  }

  function ReferencePrice(p: VenuePosition): Option<real> {
    if p.avgEntry.Some? then p.avgEntry else p.current
  }

  predicate PendingBuy(fills: map<OrderId, PendingFill>, s: Symbol) {
    exists id :: id in fills && fills[id].symbol == s && fills[id].side == Buy
  }

  function StopAndTarget(price: real, cfg: Config): (real, real) {
    (price * cfg.slP, price * cfg.tpP)
  }

  function StopOf(fills: map<OrderId, PendingFill>, p: VenuePosition, cfg: Config): Option<(real, real)> {
    if p.class_ != Crypto || ReferencePrice(p).None? || ReferencePrice(p).value <= 0.0 || PendingBuy(fills, p.symbol) then None
    else Some(StopAndTarget(ReferencePrice(p).value, cfg))
  }

  /** A dict built over the trades keeps the last one of a contract. */
  function TradeOf(trades: seq<OpenTrade>, c: Contract): Option<OpenTrade> {
    if trades == [] then None
    else if trades[|trades| - 1].contract == c then Some(trades[|trades| - 1])
    else TradeOf(trades[..|trades| - 1], c)
  }

  function Abs(n: int): nat {
    if n < 0 then -n else n
  }

  function EntryOf(trades: seq<OpenTrade>, p: VenuePosition, cfg: Config): Option<Position> {
    if p.class_ != OptionContract || !p.long then None
    else if TradeOf(trades, p.contract).Some? then
      Some(Position(TradeOf(trades, p.contract).value.terms, TradeOf(trades, p.contract).value.entryPremium, Abs(p.qty)))
    else if cfg.parse(p.contract).None? || p.avgEntry.None? || p.avgEntry.value <= 0.0 then None
    else Some(Position(cfg.parse(p.contract).value, p.avgEntry.value, Abs(p.qty)))
  }

  function OptionFillOf(positions: map<Contract, Position>, trades: seq<OpenTrade>, o: OpenOrder, cfg: Config): Option<Ctx> {
    if o.class_ != OptionContract then None
    else if o.side == Sell then
      Some(SellCtx(o.contract, if o.contract in positions then Some(positions[o.contract].terms.symbol) else None, RECONSTRUCTED))
    else if cfg.parse(o.contract).None? then None
    else Some(BuyCtx(o.contract, cfg.parse(o.contract).value, o.qty, TradeOf(trades, o.contract).Some?))
  }

  // ----- the four rebuilding loops, as functions of the elements handled so far

  function Put<K, V>(m: map<K, V>, k: K, v: Option<V>): map<K, V> {
    if v.Some? then m[k := v.value] else m
  }

  function PutIfAbsent<K, V>(m: map<K, V>, k: K, v: Option<V>): map<K, V> {
    if k in m then m else Put(m, k, v)
  }

  function Brackets(m: map<Symbol, OrderId>, orders: seq<OpenOrder>): map<Symbol, OrderId> {
    if orders == [] then m
    else var last := orders[|orders| - 1]; Put(Brackets(m, orders[..|orders| - 1]), last.symbol, BracketOf(last))
  }

  function Fills(m: map<OrderId, PendingFill>, orders: seq<OpenOrder>): map<OrderId, PendingFill> {
    if orders == [] then m
    else var last := orders[|orders| - 1]; Put(Fills(m, orders[..|orders| - 1]), last.id, FillOf(last))
  }

  function Stops(m: map<Symbol, (real, real)>, fills: map<OrderId, PendingFill>, ps: seq<VenuePosition>,
                 cfg: Config): map<Symbol, (real, real)> {
    if ps == [] then m
    else var last := ps[|ps| - 1]; PutIfAbsent(Stops(m, fills, ps[..|ps| - 1], cfg), last.symbol, StopOf(fills, last, cfg))
  }

  function Opens(opens: set<Symbol>, ps: seq<VenuePosition>): set<Symbol> {
    opens + set p | p in ps && p.class_ != OptionContract :: p.symbol
  }

  function Entries(m: map<Contract, Position>, trades: seq<OpenTrade>, ps: seq<VenuePosition>,
                   cfg: Config): map<Contract, Position> {
    if ps == [] then m
    else var last := ps[|ps| - 1]; PutIfAbsent(Entries(m, trades, ps[..|ps| - 1], cfg), last.contract, EntryOf(trades, last, cfg))
  }

  function OptionFills(m: map<OrderId, Ctx>, positions: map<Contract, Position>, trades: seq<OpenTrade>,
                       orders: seq<OpenOrder>, cfg: Config): map<OrderId, Ctx> {
    if orders == [] then m
    else var last := orders[|orders| - 1];
      PutIfAbsent(OptionFills(m, positions, trades, orders[..|orders| - 1], cfg), last.id, OptionFillOf(positions, trades, last, cfg))
  }

  // ----- one attempt

  function RebuildOrders(t: Tracked, orders: seq<OpenOrder>): Tracked {
    t.(fills := Fills(t.fills, orders), brackets := Brackets(t.brackets, orders))
  }

  /** The positions a rebuild gets through before it raises, if it does. */
  function Upto(ps: seq<VenuePosition>, raises: Option<nat>): seq<VenuePosition> {
    if raises.Some? && raises.value < |ps| then ps[..raises.value] else ps
  }

  function RebuildPositions(t: Tracked, ps: seq<VenuePosition>, trades: seq<OpenTrade>, a: Answers, cfg: Config): Tracked {
    t.(stops := Stops(t.stops, t.fills, Upto(ps, a.cryptoRaises), cfg), opens := Opens(t.opens, ps),
       positions := Entries(t.positions, trades, Upto(ps, a.rebuildRaises), cfg))
  }

  function RebuildOptionFills(t: Tracked, trades: seq<OpenTrade>, orders: seq<OpenOrder>, cfg: Config): Tracked {
    t.(optionFills := OptionFills(t.optionFills, t.positions, trades, orders, cfg))
  }

  predicate Complete(a: Answers) {
    a.orders.Some? && a.positions.Some? && a.trades.Some? && a.optionOrders.Some? && a.rebuildRaises.None?
  }

  function Attempt(t: Tracked, a: Answers, cfg: Config): Tracked {
    if a.orders.None? then t
    else
      var t1 := RebuildOrders(t, a.orders.value);
      if a.positions.None? || a.trades.None? then t1
      else
        var t2 := RebuildPositions(t1, a.positions.value, a.trades.value, a, cfg);
        if a.rebuildRaises.Some? || a.optionOrders.None? then t2
        else RebuildOptionFills(t2, a.trades.value, a.optionOrders.value, cfg).(reconciled := true)
  }

  // ----- a loop's result is a fixed set of writes over, or under, what was there

  lemma {:induction false} BracketsWrites(m: map<Symbol, OrderId>, orders: seq<OpenOrder>)
    ensures Brackets(m, orders) == m + Brackets(map[], orders)
  {
    if orders != [] {
      BracketsWrites(m, orders[..|orders| - 1]);
    }
  }

  lemma {:induction false} FillsWrites(m: map<OrderId, PendingFill>, orders: seq<OpenOrder>)
    ensures Fills(m, orders) == m + Fills(map[], orders)
  {
    if orders != [] {
      FillsWrites(m, orders[..|orders| - 1]);
    }
  }

  lemma {:induction false} StopsUnder(m: map<Symbol, (real, real)>, fills: map<OrderId, PendingFill>,
                                      ps: seq<VenuePosition>, cfg: Config)
    ensures Stops(m, fills, ps, cfg) == Stops(map[], fills, ps, cfg) + m
  {
    if ps != [] {
      StopsUnder(m, fills, ps[..|ps| - 1], cfg);
    }
  }

  lemma {:induction false} EntriesUnder(m: map<Contract, Position>, trades: seq<OpenTrade>, ps: seq<VenuePosition>, cfg: Config)
    ensures Entries(m, trades, ps, cfg) == Entries(map[], trades, ps, cfg) + m
  {
    if ps != [] {
      EntriesUnder(m, trades, ps[..|ps| - 1], cfg);
    }
  }

  lemma {:induction false} OptionFillsUnder(m: map<OrderId, Ctx>, positions: map<Contract, Position>,
                                            trades: seq<OpenTrade>, orders: seq<OpenOrder>, cfg: Config)
    ensures OptionFills(m, positions, trades, orders, cfg) == OptionFills(map[], positions, trades, orders, cfg) + m
  {
    if orders != [] {
      OptionFillsUnder(m, positions, trades, orders[..|orders| - 1], cfg);
    }
  }

  // ----- repeating a rebuild changes nothing

  lemma OrdersTwice(t: Tracked, orders: seq<OpenOrder>)
    ensures RebuildOrders(RebuildOrders(t, orders), orders) == RebuildOrders(t, orders)
  {
    FillsWrites(t.fills, orders);
    FillsWrites(Fills(t.fills, orders), orders);
    BracketsWrites(t.brackets, orders);
    BracketsWrites(Brackets(t.brackets, orders), orders);
  }

  /** A rebuild that got through a prefix only has written what the whole one would. */
  lemma {:induction false} StopsPrefix(fills: map<OrderId, PendingFill>, ps: seq<VenuePosition>, n: nat, cfg: Config)
    requires n <= |ps|
    ensures Stops(map[], fills, ps, cfg) + Stops(map[], fills, ps[..n], cfg) == Stops(map[], fills, ps, cfg)
    decreases |ps|
  {
    if n == |ps| {
      assert ps[..n] == ps;
    } else {
      assert ps[..|ps| - 1][..n] == ps[..n];
      StopsPrefix(fills, ps[..|ps| - 1], n, cfg);
    }
  }

  lemma {:induction false} EntriesPrefix(trades: seq<OpenTrade>, ps: seq<VenuePosition>, n: nat, cfg: Config)
    requires n <= |ps|
    ensures Entries(map[], trades, ps, cfg) + Entries(map[], trades, ps[..n], cfg) == Entries(map[], trades, ps, cfg)
    decreases |ps|
  {
    if n == |ps| {
      assert ps[..n] == ps;
    } else {
      assert ps[..|ps| - 1][..n] == ps[..n];
      EntriesPrefix(trades, ps[..|ps| - 1], n, cfg);
    }
  }

  lemma MergePrefix<K, V>(whole: map<K, V>, part: map<K, V>, m: map<K, V>)
    requires whole + part == whole
    ensures whole + (part + m) == whole + m
  {
    assert whole + (part + m) == whole + part + m;
  }

  /** A first rebuild over the same positions raised no later than a second one. */
  predicate NoFurther(first: Option<nat>, second: Option<nat>) {
    second.None? || (first.Some? && first.value <= second.value)
  }

  lemma StopsAgain(m: map<Symbol, (real, real)>, fills: map<OrderId, PendingFill>, ps: seq<VenuePosition>,
                   first: Option<nat>, second: Option<nat>, cfg: Config)
    requires NoFurther(first, second)
    ensures Stops(Stops(m, fills, Upto(ps, first), cfg), fills, Upto(ps, second), cfg) == Stops(m, fills, Upto(ps, second), cfg)
  {
    var part, whole := Upto(ps, first), Upto(ps, second);
    StopsUnder(m, fills, part, cfg);
    StopsUnder(m, fills, whole, cfg);
    StopsUnder(Stops(m, fills, part, cfg), fills, whole, cfg);
    assert whole[..|part|] == part;
    StopsPrefix(fills, whole, |part|, cfg);
    MergePrefix(Stops(map[], fills, whole, cfg), Stops(map[], fills, part, cfg), m);
  }

  lemma EntriesAgain(m: map<Contract, Position>, trades: seq<OpenTrade>, ps: seq<VenuePosition>, raises: Option<nat>, cfg: Config)
    ensures Entries(Entries(m, trades, Upto(ps, raises), cfg), trades, ps, cfg) == Entries(m, trades, ps, cfg)
  {
    var part := Upto(ps, raises);
    EntriesUnder(m, trades, part, cfg);
    EntriesUnder(m, trades, ps, cfg);
    EntriesUnder(Entries(m, trades, part, cfg), trades, ps, cfg);
    assert ps[..|ps|] == ps;
    EntriesPrefix(trades, ps, |part|, cfg);
    MergePrefix(Entries(map[], trades, ps, cfg), Entries(map[], trades, part, cfg), m);
  }

  lemma PositionsTwice(t: Tracked, ps: seq<VenuePosition>, trades: seq<OpenTrade>, first: Answers, full: Answers, cfg: Config)
    requires NoFurther(first.cryptoRaises, full.cryptoRaises) && full.rebuildRaises.None?
    ensures RebuildPositions(RebuildPositions(t, ps, trades, first, cfg), ps, trades, full, cfg)
         == RebuildPositions(t, ps, trades, full, cfg)
  {
    StopsAgain(t.stops, t.fills, ps, first.cryptoRaises, full.cryptoRaises, cfg);
    EntriesAgain(t.positions, trades, ps, first.rebuildRaises, cfg);
    assert Opens(Opens(t.opens, ps), ps) == Opens(t.opens, ps);
  }

  lemma OptionFillsTwice(t: Tracked, trades: seq<OpenTrade>, orders: seq<OpenOrder>, cfg: Config)
    ensures RebuildOptionFills(RebuildOptionFills(t, trades, orders, cfg), trades, orders, cfg) == RebuildOptionFills(t, trades, orders, cfg)
  {
    OptionFillsUnder(t.optionFills, t.positions, trades, orders, cfg);
    OptionFillsUnder(OptionFills(t.optionFills, t.positions, trades, orders, cfg), t.positions, trades, orders, cfg);
  }

  /** `a` and `b` answer from one snapshot: reads that succeed in both agree. */
  predicate OneSnapshot(a: Answers, b: Answers) {
    && (a.orders.Some? && b.orders.Some? ==> a.orders == b.orders)
    && (a.positions.Some? && b.positions.Some? ==> a.positions == b.positions)
    && (a.trades.Some? && b.trades.Some? ==> a.trades == b.trades)
    && (a.optionOrders.Some? && b.optionOrders.Some? ==> a.optionOrders == b.optionOrders)
  }

  /** Confluence: whatever reads failed and whatever raised in a first attempt, a complete attempt on the
      same snapshot, whose crypto step gets as far at least, ends where it would have ended alone. With
      two complete attempts this is idempotence. */
  lemma AttemptsConfluent(t: Tracked, first: Answers, full: Answers, cfg: Config)
    requires Complete(full) && NoFurther(first.cryptoRaises, full.cryptoRaises) && OneSnapshot(first, full)
    ensures Attempt(Attempt(t, first, cfg), full, cfg) == Attempt(t, full, cfg)
  {
    if first.orders.Some? {
      var orders, ps, trades := full.orders.value, full.positions.value, full.trades.value;
      var t1 := RebuildOrders(t, orders);
      OrdersTwice(t, orders);
      if first.positions.Some? && first.trades.Some? {
        var t2 := RebuildPositions(t1, ps, trades, first, cfg);
        PositionsTwice(t1, ps, trades, first, full, cfg);
        assert RebuildOrders(t2, orders) == t2;
        if first.rebuildRaises.None? && first.optionOrders.Some? {
          SuccessThenSuccess(t1, first, full, cfg);
        }
      }
    }
  }

  lemma SuccessThenSuccess(t1: Tracked, first: Answers, full: Answers, cfg: Config)
    requires Complete(full) && NoFurther(first.cryptoRaises, full.cryptoRaises) && Complete(first) && OneSnapshot(first, full)
    requires RebuildOrders(t1, full.orders.value) == t1
    ensures Attempt(Attempt(t1, first, cfg), full, cfg) == Attempt(t1, full, cfg)
  {
    var orders, ps, trades, listed := full.orders.value, full.positions.value, full.trades.value, full.optionOrders.value;
    var t2 := RebuildPositions(t1, ps, trades, first, cfg);
    var t3 := RebuildOptionFills(t2, trades, listed, cfg).(reconciled := true);
    var t4 := RebuildPositions(t3, ps, trades, full, cfg);
    PositionsTwice(t1, ps, trades, first, full, cfg);
    assert RebuildOrders(t3, orders) == t3;
    EntriesAgain(t1.positions, trades, ps, None, cfg);
    assert t4.positions == t2.positions;
    OptionFillsTwice(t2, trades, listed, cfg);
    assert t4.optionFills == RebuildOptionFills(t2, trades, listed, cfg).optionFills;
  }

  /** Only a complete attempt sets the flag; no attempt clears it. */
  lemma FlagOnlyOnSuccess(t: Tracked, a: Answers, cfg: Config)
    ensures Attempt(t, a, cfg).reconciled <==> t.reconciled || Complete(a)
  {
  }

  // ----- a success leaves nothing untracked

  lemma {:induction false} EntriesCover(m: map<Contract, Position>, trades: seq<OpenTrade>, ps: seq<VenuePosition>,
                                        cfg: Config, k: nat)
    requires k < |ps| && EntryOf(trades, ps[k], cfg).Some?
    ensures ps[k].contract in Entries(m, trades, ps, cfg)
    decreases |ps|
  {
    if k < |ps| - 1 {
      EntriesCover(m, trades, ps[..|ps| - 1], cfg, k);
    }
  }

  lemma {:induction false} OptionFillsCover(m: map<OrderId, Ctx>, positions: map<Contract, Position>,
                                            trades: seq<OpenTrade>, orders: seq<OpenOrder>, cfg: Config, k: nat)
    requires k < |orders| && OptionFillOf(positions, trades, orders[k], cfg).Some?
    ensures orders[k].id in OptionFills(m, positions, trades, orders, cfg)
    decreases |orders|
  {
    if k < |orders| - 1 {
      OptionFillsCover(m, positions, trades, orders[..|orders| - 1], cfg, k);
    }
  }

  /** After a success every open option SELL, and every option BUY whose symbol parses, is pending;
      and every long option position with an open row, or with a parsing symbol and a positive entry
      price, has an entry for the stop checks. */
  lemma SuccessTracksAll(t: Tracked, a: Answers, cfg: Config)
    requires Complete(a)
    ensures forall k :: 0 <= k < |a.optionOrders.value| && a.optionOrders.value[k].class_ == OptionContract
              && (a.optionOrders.value[k].side == Sell || cfg.parse(a.optionOrders.value[k].contract).Some?)
              ==> a.optionOrders.value[k].id in Attempt(t, a, cfg).optionFills
    ensures forall k :: 0 <= k < |a.positions.value| && EntryOf(a.trades.value, a.positions.value[k], cfg).Some?
              ==> a.positions.value[k].contract in Attempt(t, a, cfg).positions
  {
    var t2 := RebuildPositions(RebuildOrders(t, a.orders.value), a.positions.value, a.trades.value, a, cfg);
    forall k | 0 <= k < |a.optionOrders.value| && OptionFillOf(t2.positions, a.trades.value, a.optionOrders.value[k], cfg).Some?
      ensures a.optionOrders.value[k].id in Attempt(t, a, cfg).optionFills
    {
      OptionFillsCover(t2.optionFills, t2.positions, a.trades.value, a.optionOrders.value, cfg, k);
    }
    forall k | 0 <= k < |a.positions.value| && EntryOf(a.trades.value, a.positions.value[k], cfg).Some?
      ensures a.positions.value[k].contract in Attempt(t, a, cfg).positions
    {
      EntriesCover(t.positions, a.trades.value, a.positions.value, cfg, k);
    }
  }

  // ----- a restart starts from nothing

  ghost predicate OneEntryEach(ps: seq<VenuePosition>) {
    forall i, j :: 0 <= i < j < |ps| && ps[i].class_ == OptionContract && ps[j].class_ == OptionContract ==> ps[i].contract != ps[j].contract
  }

  ghost predicate OneListingEach(orders: seq<OpenOrder>) {
    forall i, j :: 0 <= i < j < |orders| ==> orders[i].id != orders[j].id
  }

  lemma {:induction false} EntriesExact(trades: seq<OpenTrade>, ps: seq<VenuePosition>, cfg: Config, k: nat)
    requires k < |ps| && EntryOf(trades, ps[k], cfg).Some? && OneEntryEach(ps)
    ensures ps[k].contract in Entries(map[], trades, ps, cfg)
    ensures Entries(map[], trades, ps, cfg)[ps[k].contract] == EntryOf(trades, ps[k], cfg).value
    decreases |ps|
  {
    var n := |ps| - 1;
    if k < n {
      EntriesExact(trades, ps[..n], cfg, k);
    } else if ps[n].contract in Entries(map[], trades, ps[..n], cfg) {
      var j := EntriesFrom(trades, ps[..n], cfg, ps[n].contract);
    }
  }

  lemma {:induction false} EntriesFrom(trades: seq<OpenTrade>, ps: seq<VenuePosition>, cfg: Config, c: Contract) returns (k: nat)
    requires c in Entries(map[], trades, ps, cfg)
    ensures k < |ps| && ps[k].contract == c && EntryOf(trades, ps[k], cfg).Some?
    decreases |ps|
  {
    var n := |ps| - 1;
    if c in Entries(map[], trades, ps[..n], cfg) {
      k := EntriesFrom(trades, ps[..n], cfg, c);
    } else {
      k := n;
    }
  }

  lemma {:induction false} OptionFillsExact(positions: map<Contract, Position>, trades: seq<OpenTrade>,
                                            orders: seq<OpenOrder>, cfg: Config, k: nat)
    requires k < |orders| && OptionFillOf(positions, trades, orders[k], cfg).Some? && OneListingEach(orders)
    ensures orders[k].id in OptionFills(map[], positions, trades, orders, cfg)
    ensures OptionFills(map[], positions, trades, orders, cfg)[orders[k].id] == OptionFillOf(positions, trades, orders[k], cfg).value
    decreases |orders|
  {
    var n := |orders| - 1;
    if k < n {
      OptionFillsExact(positions, trades, orders[..n], cfg, k);
    } else if orders[n].id in OptionFills(map[], positions, trades, orders[..n], cfg) {
      var j := OptionFillsFrom(positions, trades, orders[..n], cfg, orders[n].id);
    }
  }

  lemma {:induction false} OptionFillsFrom(positions: map<Contract, Position>, trades: seq<OpenTrade>,
                                           orders: seq<OpenOrder>, cfg: Config, id: OrderId) returns (k: nat)
    requires id in OptionFills(map[], positions, trades, orders, cfg)
    ensures k < |orders| && orders[k].id == id && OptionFillOf(positions, trades, orders[k], cfg).Some?
    decreases |orders|
  {
    var n := |orders| - 1;
    if id in OptionFills(map[], positions, trades, orders[..n], cfg) {
      k := OptionFillsFrom(positions, trades, orders[..n], cfg, id);
    } else {
      k := n;
    }
  }

  ghost predicate NoRow(trades: seq<OpenTrade>, c: Contract) {
    forall r :: r in trades ==> r.contract != c
  }

  ghost predicate LatestRow(trades: seq<OpenTrade>, c: Contract, k: nat) {
    k < |trades| && trades[k].contract == c && forall j :: k < j < |trades| ==> trades[j].contract != c
  }

  ghost predicate RowFor(p: Position, v: VenuePosition, trades: seq<OpenTrade>) {
    exists k: nat :: LatestRow(trades, v.contract, k) && p.entryPremium == trades[k].entryPremium && p.terms == trades[k].terms
  }

  /** What a restored entry says of the venue's position: its size, under the premium and terms of the
      latest open row, or without one under the average price and the terms in the symbol. */
  ghost predicate Restores(p: Position, v: VenuePosition, trades: seq<OpenTrade>, cfg: Config) {
    && v.class_ == OptionContract && v.long && (v.qty >= 0 ==> p.qty == v.qty)
    && (RowFor(p, v, trades) || (NoRow(trades, v.contract)
          && cfg.parse(v.contract) == Some(p.terms) && v.avgEntry == Some(p.entryPremium) && p.entryPremium > 0.0))
  }

  lemma {:induction false} TradeOfFinds(trades: seq<OpenTrade>, c: Contract)
    ensures TradeOf(trades, c).Some? ==> exists k: nat :: LatestRow(trades, c, k) && trades[k] == TradeOf(trades, c).value
    ensures TradeOf(trades, c).None? ==> NoRow(trades, c)
  {
    if trades != [] {
      var n := |trades| - 1;
      TradeOfFinds(trades[..n], c);
      if trades[n].contract == c {
        assert LatestRow(trades, c, n);
      } else if TradeOf(trades, c).Some? {
        var k: nat :| LatestRow(trades[..n], c, k) && trades[..n][k] == TradeOf(trades, c).value;
        assert LatestRow(trades, c, k);
      }
      assert forall r :: r in trades ==> r in trades[..|trades| - 1] || r == trades[|trades| - 1];
    }
  }

  /** What a restored pending entry says of the open order: a BUY has the terms in its symbol, and its row
      counts as opened exactly when the contract has an open one; a SELL has the underlying of the
      rebuilt entry, if there is one. */
  ghost predicate Relists(ctx: Ctx, o: OpenOrder, positions: map<Contract, Position>, trades: seq<OpenTrade>, cfg: Config) {
    && o.class_ == OptionContract && ctx.contract == o.contract && (ctx.SellCtx? <==> o.side == Sell)
    && (ctx.BuyCtx? ==> cfg.parse(o.contract) == Some(ctx.terms) && ctx.qty == o.qty && (ctx.rowOpened <==> !NoRow(trades, o.contract)))
    && (ctx.SellCtx? ==> ctx.reason == "reconstructed_after_restart"
                         && ctx.symbol == if o.contract in positions then Some(positions[o.contract].terms.symbol) else None)
  }

  /** From empty maps, a success tracks each recoverable position and each open option order as the
      venue has it, and nothing else. */
  lemma RestartTracksExactly(t: Tracked, a: Answers, cfg: Config)
    requires Complete(a) && t.positions == map[] && t.optionFills == map[]
    requires OneEntryEach(a.positions.value) && OneListingEach(a.optionOrders.value)
    ensures var t' := Attempt(t, a, cfg); var ps, orders := a.positions.value, a.optionOrders.value;
      && (forall c :: c in t'.positions ==> exists k :: 0 <= k < |ps| && ps[k].contract == c && Restores(t'.positions[c], ps[k], a.trades.value, cfg))
      && (forall id :: id in t'.optionFills ==> exists k :: 0 <= k < |orders| && orders[k].id == id && Relists(t'.optionFills[id], orders[k], t'.positions, a.trades.value, cfg))
  {
    var ps, orders, trades := a.positions.value, a.optionOrders.value, a.trades.value;
    var t' := Attempt(t, a, cfg);
    forall c | c in t'.positions ensures exists k :: 0 <= k < |ps| && ps[k].contract == c && Restores(t'.positions[c], ps[k], trades, cfg) {
      var k := EntriesFrom(trades, ps, cfg, c);
      EntriesExact(trades, ps, cfg, k);
      TradeOfFinds(trades, c);
      assert Restores(t'.positions[c], ps[k], trades, cfg);
    }
    forall id | id in t'.optionFills ensures exists k :: 0 <= k < |orders| && orders[k].id == id && Relists(t'.optionFills[id], orders[k], t'.positions, trades, cfg) {
      var k := OptionFillsFrom(t'.positions, trades, orders, cfg, id);
      OptionFillsExact(t'.positions, trades, orders, cfg, k);
      TradeOfFinds(trades, orders[k].contract);
      assert Relists(t'.optionFills[id], orders[k], t'.positions, trades, cfg);
    }
  }

  // ----- what buy tracks

  const OPENING := "opening_position"

  function Bought(t: Tracked, symbol: Symbol, outcome: BracketOrders.Outcome, cfg: BracketOrders.Config): Tracked {
    match outcome
    case Submitted(id, order, _) =>
      t.(brackets := t.brackets[symbol := id],
         fills := t.fills[id := PendingFill(symbol, Buy, OPENING, Some((order.stopLoss, order.takeProfit)), None)])
    case SubmittedNotional(id, _) =>
      t.(fills := t.fills[id := PendingFill(symbol, Buy, OPENING, None, Some((cfg.cryptoSlP, cfg.cryptoTpP)))])
    case Skipped(_) => t
    case Raised => t
  }

  /** The order is the symbol's bracket, and its fill is awaited with the legs it was sent with: the stop
      first, then the target, on their sides of the reference price. */
  ghost predicate WatchesBracket(t: Tracked, symbol: Symbol, outcome: BracketOrders.Outcome, slP: real, tpP: real)
    requires outcome.Submitted?
  {
    && symbol in t.brackets && t.brackets[symbol] == outcome.id && outcome.id in t.fills
    && var fill := t.fills[outcome.id];
       && fill.symbol == symbol && fill.side == Buy && fill.levels.None? && fill.legs.Some?
       && fill.legs.value.0 < outcome.reference < fill.legs.value.1
       && BracketOrders.LegsAt(BracketOrders.BracketOrder(outcome.order.qty, fill.legs.value.0, fill.legs.value.1), outcome.reference, slP, tpP)
  }

  /** The fill is awaited with the fractions its stop and target will be set at. */
  ghost predicate WatchesNotional(t: Tracked, symbol: Symbol, id: OrderId, cfg: BracketOrders.Config) {
    id in t.fills && t.fills[id].symbol == symbol && t.fills[id].side == Buy
    && t.fills[id].legs.None? && t.fills[id].levels == Some((cfg.cryptoSlP, cfg.cryptoTpP))
  }

  /** A submitted order adds its fill and no other; any other outcome touches nothing. */
  ghost predicate OnlyFill(t: Tracked, t': Tracked, outcome: BracketOrders.Outcome) {
    && t' == t.(fills := t'.fills, brackets := t'.brackets)
    && (outcome.Submitted? || outcome.SubmittedNotional? ==> t'.fills - {outcome.id} == t.fills - {outcome.id})
    && (!outcome.Submitted? ==> t'.brackets == t.brackets)
    && (!outcome.Submitted? && !outcome.SubmittedNotional? ==> t'.fills == t.fills)
  }

  // ----- the functions as they are written

  class TrackedState {
    var fills: map<OrderId, PendingFill>
    var brackets: map<Symbol, OrderId>
    var stops: map<Symbol, (real, real)>
    var positions: map<Contract, Position>
    var optionFills: map<OrderId, Ctx>
    var opens: set<Symbol>
    var reconciled: bool

    function Now(): Tracked
      reads this
    {
      Tracked(fills, brackets, stops, positions, optionFills, opens, reconciled)
    }

    constructor ()
      ensures Now() == Tracked(map[], map[], map[], map[], map[], {}, false)
    {
      fills, brackets, stops, positions, optionFills, opens, reconciled := map[], map[], map[], map[], map[], {}, false;
    }

    method RestoreOrders(orders: seq<OpenOrder>)
      modifies this
      ensures Now() == RebuildOrders(old(Now()), orders)
    {
      var i := 0;
      while i < |orders|
        invariant 0 <= i <= |orders|
        invariant Now() == RebuildOrders(old(Now()), orders[..i])
      {
        var o := orders[i];
        assert orders[..i + 1][..i] == orders[..i];
        if o.class_ != OptionContract {
          if o.legs != [] {
            if exists k :: 0 <= k < |o.legs| && o.legs[k] {
              brackets := brackets[o.symbol := o.id];
            }
          } else if !o.anyFill && o.live {
            fills := fills[o.id := PendingFill(o.symbol, o.side, RECONSTRUCTED, None, None)];
          }
        }
        i := i + 1;
      }
      assert orders[..i] == orders;
    }

    method RestoreStops(ps: seq<VenuePosition>, cfg: Config)
      modifies this
      ensures Now() == old(Now()).(stops := Stops(old(stops), old(fills), ps, cfg))
    {
      var i := 0;
      while i < |ps|
        invariant 0 <= i <= |ps|
        invariant Now() == old(Now()).(stops := Stops(old(stops), old(fills), ps[..i], cfg))
        invariant fills == old(fills)
      {
        var p := ps[i];
        assert ps[..i + 1][..i] == ps[..i];
        if p.class_ == Crypto {
          var price := ReferencePrice(p);
          if price.Some? && price.value > 0.0 {
            var hasPendingBuy := PendingBuy(fills, p.symbol);
            if !(p.symbol in stops || hasPendingBuy) {
              stops := stops[p.symbol := StopAndTarget(price.value, cfg)];
            }
          }
        }
        i := i + 1;
      }
      assert ps[..i] == ps;
    }

    method BackfillOpens(ps: seq<VenuePosition>)
      modifies this
      ensures Now() == old(Now()).(opens := Opens(old(opens), ps))
    {
      var i := 0;
      while i < |ps|
        invariant 0 <= i <= |ps|
        invariant Now() == old(Now()).(opens := Opens(old(opens), ps[..i]))
      {
        var p := ps[i];
        OpensOneMore(old(opens), ps, i);
        if p.class_ != OptionContract {
          opens := opens + {p.symbol};
        }
        i := i + 1;
      }
      assert ps[..i] == ps;
    }

    method RestoreEntries(ps: seq<VenuePosition>, trades: seq<OpenTrade>, cfg: Config)
      modifies this
      ensures Now() == old(Now()).(positions := Entries(old(positions), trades, ps, cfg))
    {
      var i := 0;
      while i < |ps|
        invariant 0 <= i <= |ps|
        invariant Now() == old(Now()).(positions := Entries(old(positions), trades, ps[..i], cfg))
      {
        var p := ps[i];
        assert ps[..i + 1][..i] == ps[..i];
        if p.class_ == OptionContract && p.contract !in positions && p.long {
          var trade := TradeOf(trades, p.contract);
          if trade.Some? {
            positions := positions[p.contract := Position(trade.value.terms, trade.value.entryPremium, Abs(p.qty))];
          } else {
            var parsed := cfg.parse(p.contract);
            if parsed.Some? && p.avgEntry.Some? && p.avgEntry.value > 0.0 {
              positions := positions[p.contract := Position(parsed.value, p.avgEntry.value, Abs(p.qty))];
            }
          }
        }
        i := i + 1;
      }
      assert ps[..i] == ps;
    }

    method RestoreOptionFills(orders: seq<OpenOrder>, trades: seq<OpenTrade>, cfg: Config)
      modifies this
      ensures Now() == RebuildOptionFills(old(Now()), trades, orders, cfg)
    {
      var i := 0;
      while i < |orders|
        invariant 0 <= i <= |orders|
        invariant Now() == RebuildOptionFills(old(Now()), trades, orders[..i], cfg)
      {
        var o := orders[i];
        assert orders[..i + 1][..i] == orders[..i];
        if o.class_ == OptionContract && o.id !in optionFills {
          if o.side == Sell {
            var symbol := if o.contract in positions then Some(positions[o.contract].terms.symbol) else None;
            optionFills := optionFills[o.id := SellCtx(o.contract, symbol, RECONSTRUCTED)];
          } else {
            var parsed := cfg.parse(o.contract);
            if parsed.Some? {
              optionFills := optionFills[o.id := BuyCtx(o.contract, parsed.value, o.qty, TradeOf(trades, o.contract).Some?)];
            }
          }
        }
        i := i + 1;
      }
      assert orders[..i] == orders;
    }

    /** Returns whether the attempt succeeded. */
    method ReconcileTrackedStateOnce(a: Answers, cfg: Config) returns (ok: bool)
      modifies this
      ensures Now() == Attempt(old(Now()), a, cfg)
      ensures ok <==> Complete(a)
    {
      if a.orders.None? {
        return false;
      }
      RestoreOrders(a.orders.value);
      if a.positions.None? || a.trades.None? {
        return false;
      }
      RestoreStops(Upto(a.positions.value, a.cryptoRaises), cfg);
      BackfillOpens(a.positions.value);
      RestoreEntries(Upto(a.positions.value, a.rebuildRaises), a.trades.value, cfg);
      if a.rebuildRaises.Some? || a.optionOrders.None? {
        return false;
      }
      RestoreOptionFills(a.optionOrders.value, a.trades.value, cfg);
      reconciled := true;
      return true;
    }

    /** reconstruct_tracked_state: retry until an attempt succeeds or the attempts run out. On one
        snapshot the result is that of a single success, however many attempts failed before it. */
    method ReconstructTrackedState(attempts: seq<Answers>, full: Answers, cfg: Config) returns (ok: bool)
      requires Complete(full)
      requires forall k :: 0 <= k < |attempts| ==> OneSnapshot(attempts[k], full) && NoFurther(attempts[k].cryptoRaises, full.cryptoRaises)
      modifies this
      ensures ok <==> exists k :: 0 <= k < |attempts| && Complete(attempts[k])
      ensures Attempt(Now(), full, cfg) == Attempt(old(Now()), full, cfg)
      ensures ok && (forall k :: 0 <= k < |attempts| ==> attempts[k].cryptoRaises == full.cryptoRaises) ==> Now() == Attempt(old(Now()), full, cfg)
      ensures !ok ==> reconciled == old(reconciled)
    {
      var i := 0;
      while i < |attempts|
        invariant 0 <= i <= |attempts|
        invariant forall k :: 0 <= k < i ==> !Complete(attempts[k])
        invariant Attempt(Now(), full, cfg) == Attempt(old(Now()), full, cfg)
        invariant reconciled == old(reconciled)
      {
        AttemptsConfluent(Now(), attempts[i], full, cfg);
        FlagOnlyOnSuccess(Now(), attempts[i], cfg);
        assert Complete(attempts[i]) && attempts[i].cryptoRaises == full.cryptoRaises ==> attempts[i] == full;
        ok := ReconcileTrackedStateOnce(attempts[i], cfg);
        if ok {
          return true;
        }
        i := i + 1;
      }
      return false;
    }

    // ----- buy

    /** What is allowed to go out is decided on the flag of this very state. A submitted stock order is
        watched under its own id and bracket prices, a crypto order under its id and fractions;
        nothing else is touched, and any other outcome touches nothing. */
    method Buy(symbol: Symbol, exchange: BracketOrders.Exchange, budget: real, slP: real, tpP: real,
               cfg: BracketOrders.Config, w: BracketOrders.World) returns (outcome: BracketOrders.Outcome)
      modifies this
      ensures outcome == BracketOrders.BuyOutcome(old(reconciled), exchange, budget, slP, tpP, cfg, w)
      ensures Now() == Bought(old(Now()), symbol, outcome, cfg)
      ensures outcome.Submitted? ==> WatchesBracket(Now(), symbol, outcome, slP, tpP)
      ensures outcome.SubmittedNotional? ==> WatchesNotional(Now(), symbol, outcome.id, cfg)
      ensures OnlyFill(old(Now()), Now(), outcome)
    {
      var effectiveSlP := if exchange.Stocks? then slP else cfg.cryptoSlP;
      var allowed := budget;
      var cap := BracketOrders.RiskCap(effectiveSlP, cfg);
      if cap.Some? && cap.value < allowed {
        allowed := cap.value;
      }
      var skip := BracketOrders.Preflight(reconciled, w, cfg);
      if skip.Some? {
        return BracketOrders.Skipped(skip.value);
      }
      var sized := BracketOrders.RemainingBudget(allowed, w.holding);
      if sized.NoBudget? {
        return BracketOrders.Skipped(sized.skip);
      }
      if exchange.Stocks? {
        outcome := SendBracket(sized.amount, slP, tpP, cfg, w);
      } else {
        outcome := SendNotional(sized.amount, exchange.usdQuoted, w);
      }
      assert outcome == BracketOrders.BuyOutcome(reconciled, exchange, budget, slP, tpP, cfg, w);
      if outcome.Submitted? {
        BracketOrders.LegsOfSubmitted(reconciled, budget, slP, tpP, cfg, w);
        brackets := brackets[symbol := outcome.id];
        var legs := (outcome.order.stopLoss, outcome.order.takeProfit);
        fills := fills[outcome.id := PendingFill(symbol, Side.Buy, OPENING, Some(legs), None)];
      } else if outcome.SubmittedNotional? {
        fills := fills[outcome.id := PendingFill(symbol, Side.Buy, OPENING, None, Some((cfg.cryptoSlP, cfg.cryptoTpP)))];
      }
    }

    method SendBracket(budget: real, slP: real, tpP: real, cfg: BracketOrders.Config, w: BracketOrders.World)
      returns (outcome: BracketOrders.Outcome)
      ensures outcome == BracketOrders.Bracketed(budget, slP, tpP, BracketOrders.ReferencePrice(w, cfg), w)
    {
      var price := BracketOrders.ReferencePrice(w, cfg);
      if price.NoPrice? {
        return BracketOrders.Skipped(price.skip);
      }
      var request := BracketOrders.BracketBuy(price.ask, budget, slP, tpP);
      if request.Failed? {
        return BracketOrders.Skipped(BracketOrders.SkipOf(request.error));
      }
      outcome := BracketOrders.SubmitBuy(request.order, price.ask, budget, slP, tpP, w);
    }

    method SendNotional(budget: real, usdQuoted: bool, w: BracketOrders.World) returns (outcome: BracketOrders.Outcome)
      ensures outcome == BracketOrders.Notional(budget, usdQuoted, w)
    {
      if !usdQuoted {
        return BracketOrders.Skipped(BracketOrders.NonUsdPair);
      }
      var notional := BracketOrders.Cents(budget);
      if notional < BracketOrders.MIN_CRYPTO_NOTIONAL {
        return BracketOrders.Skipped(BracketOrders.BelowMinimum);
      }
      outcome := if w.first.Taken? then BracketOrders.SubmittedNotional(w.first.id, notional) else BracketOrders.Raised;
    }
  }

  lemma OpensOneMore(opens: set<Symbol>, ps: seq<VenuePosition>, i: nat)
    requires i < |ps|
    ensures Opens(opens, ps[..i + 1]) == Opens(opens, ps[..i]) + (if ps[i].class_ != OptionContract then {ps[i].symbol} else {})
  {
    assert ps[..i + 1] == ps[..i] + [ps[i]];
    forall p ensures p in ps[..i + 1] <==> p in ps[..i] || p == ps[i] {
    }
  }
}
