/** The reconcile as it is written is a run of the reconcile steps: a complete attempt whose answers are
    read from a state, the venue moving between its two reads, does to the option maps exactly what
    those steps do to that state. */
module ReconcileRefines {
  import opened Wrappers
  import opened OptionBroker
  import opened OptionProtocol
  import opened Reconcile
  import opened ThreadFrames
  import opened VenueMoves

  // ----- answers read from a state

  function OpenTrades(rows: seq<Row>): seq<OpenTrade> {
    if rows == [] then []
    else
      var earlier, last := OpenTrades(rows[..|rows| - 1]), rows[|rows| - 1];
      if last.exit.None? then earlier + [OpenTrade(last.contract, last.terms, last.entryPremium)] else earlier
  }

  ghost predicate AsHeld(b: Broker, ps: seq<VenuePosition>) {
    forall p :: p in ps && p.class_ == OptionContract ==> p.contract in b.net && p.qty == b.net[p.contract] != 0 && (p.long <==> p.qty > 0)
  }

  /** The option positions among `ps` are what the venue holds, each once. */
  ghost predicate PositionsOf(b: Broker, ps: seq<VenuePosition>) {
    && OneEntryEach(ps)
    && AsHeld(b, ps)
    && (forall c :: c in HeldContracts(b) ==> exists p :: p in ps && p.class_ == OptionContract && p.contract == c)
  }

  ghost predicate Lists(o: OpenOrder, b: Broker) {
    && o.class_ == OptionContract && o.id in b.orders && b.orders[o.id].Open()
    && o.contract == b.orders[o.id].contract && o.side == b.orders[o.id].side && o.qty == b.orders[o.id].qty
  }

  ghost predicate Listing(b: Broker, orders: seq<OpenOrder>) {
    OneListingEach(orders) && forall o :: o in orders ==> Lists(o, b)
  }

  /** The listed option orders are the venue's open ones, each once. */
  ghost predicate OrdersOf(b: Broker, orders: seq<OpenOrder>) {
    && Listing(b, orders)
    && (forall i :: i in OpenOrders(b) ==> exists o :: o in orders && o.id == i)
  }

  /** The positions and rows as they are in `s`, and the orders as the venue `b` lists them later. */
  ghost predicate ReadOf(s: State, b: Broker, a: Answers) {
    && Complete(a)
    && PositionsOf(s.b, a.positions.value) && OrdersOf(b, a.optionOrders.value) && a.trades.value == OpenTrades(s.rows)
  }

  lemma {:induction false} TradesAreOpenRows(rows: seq<Row>, c: Contract)
    ensures TradeOf(OpenTrades(rows), c).Some? <==> c in OpenRowContracts(rows)
  {
    if rows == [] {
      assert OpenRowContracts(rows) == {};
    } else {
      var init, last := rows[..|rows| - 1], rows[|rows| - 1];
      TradesAreOpenRows(init, c);
      assert forall r :: r in rows <==> r in init || r == last;
      if last.exit.None? {
        assert OpenTrades(rows)[..|OpenTrades(init)|] == OpenTrades(init);
      }
    }
  }

  // ----- the steps

  function EntryFor(trades: seq<OpenTrade>, p: VenuePosition, cfg: Config): Option<(Terms, real)> {
    if TradeOf(trades, p.contract).Some? then
      Some((TradeOf(trades, p.contract).value.terms, TradeOf(trades, p.contract).value.entryPremium))
    else if cfg.parse(p.contract).None? || p.avgEntry.None? || p.avgEntry.value <= 0.0 then None
    else Some((cfg.parse(p.contract).value, p.avgEntry.value))
  }

  function Restores(ps: seq<VenuePosition>, trades: seq<OpenTrade>, cfg: Config): seq<Step> {
    if ps == [] then []
    else
      var last := ps[|ps| - 1];
      Restores(ps[..|ps| - 1], trades, cfg)
      + (if last.class_ == OptionContract then [ReconRestore(last.contract, EntryFor(trades, last, cfg))] else [])
  }

  function Registers(orders: seq<OpenOrder>, cfg: Config): seq<Step> {
    if orders == [] then []
    else
      var last := orders[|orders| - 1];
      Registers(orders[..|orders| - 1], cfg) + [ReconRegister(last.id, cfg.parse(last.contract))]
  }

  function ReadSteps(a: Answers, cfg: Config): seq<Step>
    requires Complete(a)
  {
    [ReconBegin, ReconRows(true)] + Restores(a.positions.value, a.trades.value, cfg)
  }

  function ListSteps(a: Answers, cfg: Config): seq<Step>
    requires Complete(a)
  {
    [ReconOrders(true)] + Registers(a.optionOrders.value, cfg) + [ReconFinish]
  }

  // ----- restoring the entries

  function Handled(ps: seq<VenuePosition>): set<Contract> {
    set p | p in ps && p.class_ == OptionContract :: p.contract
  }

  lemma RestoreOne(p: Proc, b: Broker, v: VenuePosition, trades: seq<OpenTrade>, cfg: Config)
    requires p.recon.Restoring? && p.recon.held == HeldContracts(b) && v.contract in p.recon.todo
    requires v.class_ == OptionContract && v.contract in b.net && v.qty == b.net[v.contract] != 0 && (v.long <==> v.qty > 0)
    ensures ReconRestoreStep(p, v.contract, EntryFor(trades, v, cfg))
         == p.(positions := PutIfAbsent(p.positions, v.contract, EntryOf(trades, v, cfg)),
               recon := p.recon.(todo := p.recon.todo - {v.contract}))
  {
    assert p.recon.held[v.contract] == v.qty;
  }

  lemma HandledOneMore(ps: seq<VenuePosition>)
    requires ps != []
    ensures Handled(ps)
         == Handled(ps[..|ps| - 1]) + (if ps[|ps| - 1].class_ == OptionContract then {ps[|ps| - 1].contract} else {})
  {
    assert forall p :: p in ps <==> p in ps[..|ps| - 1] || p == ps[|ps| - 1];
  }

  lemma LastUnhandled(ps: seq<VenuePosition>)
    requires ps != [] && OneEntryEach(ps) && ps[|ps| - 1].class_ == OptionContract
    ensures ps[|ps| - 1].contract !in Handled(ps[..|ps| - 1])
  {
  }

  function Restored(s: State, ps: seq<VenuePosition>, trades: seq<OpenTrade>, cfg: Config): State
    requires s.p.recon.Restoring?
  {
    s.(p := s.p.(positions := Entries(s.p.positions, trades, ps, cfg), recon := s.p.recon.(todo := s.p.recon.todo - Handled(ps))))
  }

  lemma RestoreNext(s: State, ps: seq<VenuePosition>, trades: seq<OpenTrade>, cfg: Config)
    requires ps != [] && s.p.recon.Restoring? && s.p.recon.held == HeldContracts(s.b) && Handled(ps) <= s.p.recon.todo
    requires OneEntryEach(ps) && AsHeld(s.b, ps)
    ensures var last := ps[|ps| - 1]; var t := Restored(s, ps[..|ps| - 1], trades, cfg);
      Restored(s, ps, trades, cfg)
      == if last.class_ == OptionContract then Apply(t, ReconRestore(last.contract, EntryFor(trades, last, cfg))) else t
  {
    var init, last := ps[..|ps| - 1], ps[|ps| - 1];
    HandledOneMore(ps);
    assert last in ps;
    if last.class_ == OptionContract {
      LastUnhandled(ps);
      RestoreOne(Restored(s, init, trades, cfg).p, s.b, last, trades, cfg);
      assert s.p.recon.todo - Handled(ps) == s.p.recon.todo - Handled(init) - {last.contract};
      assert Entries(s.p.positions, trades, ps, cfg)
        == PutIfAbsent(Entries(s.p.positions, trades, init, cfg), last.contract, EntryOf(trades, last, cfg));
    } else {
      assert Entries(s.p.positions, trades, ps, cfg) == Entries(s.p.positions, trades, init, cfg);
      assert Handled(ps) == Handled(init);
    }
  }

  lemma {:induction false} RestoresRun(s: State, ps: seq<VenuePosition>, trades: seq<OpenTrade>, cfg: Config)
    requires s.p.recon.Restoring? && s.p.recon.held == HeldContracts(s.b) && Handled(ps) <= s.p.recon.todo
    requires OneEntryEach(ps) && AsHeld(s.b, ps)
    ensures Run(s, Restores(ps, trades, cfg)) == Restored(s, ps, trades, cfg)
    decreases |ps|
  {
    if ps == [] {
      assert s.p.recon.todo - Handled(ps) == s.p.recon.todo;
    } else {
      var init, last := ps[..|ps| - 1], ps[|ps| - 1];
      HandledOneMore(ps);
      RestoresRun(s, init, trades, cfg);
      RestoreNext(s, ps, trades, cfg);
      if last.class_ == OptionContract {
        RunSnoc(s, Restores(init, trades, cfg), ReconRestore(last.contract, EntryFor(trades, last, cfg)));
      } else {
        assert Restores(ps, trades, cfg) == Restores(init, trades, cfg);
      }
    }
  }

  // ----- registering the orders

  function Unlisted(listed: map<OrderId, Order>, orders: seq<OpenOrder>): map<OrderId, Order> {
    map i | i in listed && (forall o :: o in orders ==> o.id != i) :: listed[i]
  }

  lemma UnlistedOneMore(listed: map<OrderId, Order>, orders: seq<OpenOrder>)
    requires orders != []
    ensures Unlisted(listed, orders) == Unlisted(listed, orders[..|orders| - 1]) - {orders[|orders| - 1].id}
  {
    assert forall o :: o in orders <==> o in orders[..|orders| - 1] || o == orders[|orders| - 1];
  }

  lemma LastUnlisted(listed: map<OrderId, Order>, orders: seq<OpenOrder>)
    requires orders != [] && OneListingEach(orders) && orders[|orders| - 1].id in listed
    ensures orders[|orders| - 1].id in Unlisted(listed, orders[..|orders| - 1])
  {
  }

  /** A listed order, by its own id. */
  lemma RegisterOne(p: Proc, b: Broker, o: OpenOrder, trades: seq<OpenTrade>, cfg: Config)
    requires p.recon.Registering? && o.id in p.recon.orders && Lists(o, b) && p.recon.orders[o.id] == b.orders[o.id]
    requires TradeOf(trades, o.contract).Some? <==> o.contract in p.recon.openRows
    ensures ReconRegisterStep(p, o.id, cfg.parse(o.contract))
         == p.(pending := PutIfAbsent(p.pending, o.id, OptionFillOf(p.positions, trades, o, cfg)),
               recon := p.recon.(orders := p.recon.orders - {o.id}))
  {
  }

  ghost predicate SameTrades(trades: seq<OpenTrade>, openRows: set<Contract>) {
    forall c :: TradeOf(trades, c).Some? <==> c in openRows
  }

  function Registered(s: State, orders: seq<OpenOrder>, trades: seq<OpenTrade>, cfg: Config): State
    requires s.p.recon.Registering?
  {
    s.(p := s.p.(pending := OptionFills(s.p.pending, s.p.positions, trades, orders, cfg),
                 recon := s.p.recon.(orders := Unlisted(s.p.recon.orders, orders))))
  }

  lemma RegisterNext(s: State, orders: seq<OpenOrder>, trades: seq<OpenTrade>, cfg: Config)
    requires orders != [] && s.p.recon.Registering? && s.p.recon.orders == OpenOrders(s.b)
    requires Listing(s.b, orders) && SameTrades(trades, s.p.recon.openRows)
    ensures var last := orders[|orders| - 1];
      Registered(s, orders, trades, cfg)
      == Apply(Registered(s, orders[..|orders| - 1], trades, cfg), ReconRegister(last.id, cfg.parse(last.contract)))
  {
    var last := orders[|orders| - 1];
    assert last in orders;
    UnlistedOneMore(s.p.recon.orders, orders);
    LastUnlisted(s.p.recon.orders, orders);
    RegisterOne(Registered(s, orders[..|orders| - 1], trades, cfg).p, s.b, last, trades, cfg);
  }

  lemma {:induction false} RegistersRun(s: State, orders: seq<OpenOrder>, trades: seq<OpenTrade>, cfg: Config)
    requires s.p.recon.Registering? && s.p.recon.orders == OpenOrders(s.b)
    requires Listing(s.b, orders) && SameTrades(trades, s.p.recon.openRows)
    ensures Run(s, Registers(orders, cfg)) == Registered(s, orders, trades, cfg)
    decreases |orders|
  {
    if orders == [] {
      assert Unlisted(s.p.recon.orders, orders) == s.p.recon.orders;
    } else {
      var init, last := orders[..|orders| - 1], orders[|orders| - 1];
      RegistersRun(s, init, trades, cfg);
      RegisterNext(s, orders, trades, cfg);
      RunSnoc(s, Registers(init, cfg), ReconRegister(last.id, cfg.parse(last.contract)));
    }
  }

  // ----- the whole attempt

  lemma AllHandled(b: Broker, ps: seq<VenuePosition>)
    requires PositionsOf(b, ps)
    ensures Handled(ps) == HeldContracts(b).Keys
  {
  }

  lemma AllListed(b: Broker, orders: seq<OpenOrder>)
    requires OrdersOf(b, orders)
    ensures Unlisted(OpenOrders(b), orders) == map[]
  {
  }

  /** A process that agrees with `t` on the two option maps. */
  ghost predicate SameMaps(p: Proc, t: Tracked) {
    p.positions == t.positions && p.pending == t.optionFills
  }

  /** The first half of an attempt: the positions and rows are read and the entries restored. */
  lemma EntriesRestored(s: State, a: Answers, cfg: Config)
    requires !s.p.reconciled && s.p.recon.NotRunning? && Complete(a) && PositionsOf(s.b, a.positions.value)
    ensures Run(s, ReadSteps(a, cfg))
         == s.(p := s.p.(positions := Entries(s.p.positions, a.trades.value, a.positions.value, cfg),
                         recon := Restoring(HeldContracts(s.b), {}, OpenRowContracts(s.rows))))
  {
    var held := HeldContracts(s.b);
    var s1 := s.(p := s.p.(recon := Restoring(held, held.Keys, OpenRowContracts(s.rows))));
    TwoSteps(s);
    AllHandled(s.b, a.positions.value);
    RestoresRun(s1, a.positions.value, a.trades.value, cfg);
    assert s1.p.recon.todo - Handled(a.positions.value) == {};
    RunAppend(s, [ReconBegin, ReconRows(true)], Restores(a.positions.value, a.trades.value, cfg));
  }

  lemma ListFetched(s: State, openRows: set<Contract>, held: map<Contract, int>)
    requires s.p.recon == Restoring(held, {}, openRows)
    ensures Apply(s, ReconOrders(true)) == s.(p := s.p.(recon := Registering(OpenOrders(s.b), openRows)))
  {
  }

  lemma RegistersAll(s: State, orders: seq<OpenOrder>, trades: seq<OpenTrade>, cfg: Config)
    requires s.p.recon.Registering? && s.p.recon.orders == OpenOrders(s.b) && SameTrades(trades, s.p.recon.openRows) && OrdersOf(s.b, orders)
    ensures Run(s, Registers(orders, cfg) + [ReconFinish])
         == s.(p := s.p.(pending := OptionFills(s.p.pending, s.p.positions, trades, orders, cfg), recon := NotRunning, reconciled := true))
  {
    AllListed(s.b, orders);
    RegistersRun(s, orders, trades, cfg);
    RunSnoc(s, Registers(orders, cfg), ReconFinish);
  }

  /** The second half: the open orders are listed and registered. */
  lemma FillsRegistered(s: State, a: Answers, cfg: Config, openRows: set<Contract>, held: map<Contract, int>)
    requires s.p.recon == Restoring(held, {}, openRows) && Complete(a) && SameTrades(a.trades.value, openRows) && OrdersOf(s.b, a.optionOrders.value)
    ensures Run(s, ListSteps(a, cfg))
         == s.(p := s.p.(pending := OptionFills(s.p.pending, s.p.positions, a.trades.value, a.optionOrders.value, cfg),
                         recon := NotRunning, reconciled := true))
  {
    var orders := a.optionOrders.value;
    var listed := s.(p := s.p.(recon := Registering(OpenOrders(s.b), openRows)));
    ListFetched(s, openRows, held);
    RunOne(s, ReconOrders(true));
    RegistersAll(listed, orders, a.trades.value, cfg);
    RunAppend(s, [ReconOrders(true)], Registers(orders, cfg) + [ReconFinish]);
    assert ListSteps(a, cfg) == [ReconOrders(true)] + (Registers(orders, cfg) + [ReconFinish]);
  }

  function AttemptSteps(a: Answers, cfg: Config, fills: seq<Fill>): seq<Step>
    requires Complete(a)
  {
    ReadSteps(a, cfg) + (Moves(fills) + ListSteps(a, cfg))
  }

  /** From the moment before its first read, a complete attempt is a run, whatever the venue does between
      the two reads: the steps end in the maps the attempt computes, and the flag is set. */
  lemma CompleteAttemptIsRun(s: State, t: Tracked, a: Answers, cfg: Config, fills: seq<Fill>)
    requires !s.p.reconciled && s.p.recon.NotRunning? && ReadOf(s, Trade(s.b, fills), a) && SameMaps(s.p, t)
    ensures Run(s, AttemptSteps(a, cfg, fills))
         == State(Trade(s.b, fills),
                  s.p.(positions := Attempt(t, a, cfg).positions, pending := Attempt(t, a, cfg).optionFills, reconciled := true), s.rows)
  {
    EntriesRestored(s, a, cfg);
    forall c ensures TradeOf(a.trades.value, c).Some? <==> c in OpenRowContracts(s.rows) {
      TradesAreOpenRows(s.rows, c);
    }
    var restored := Run(s, ReadSteps(a, cfg));
    MovesTrade(restored, fills);
    FillsRegistered(restored.(b := Trade(s.b, fills)), a, cfg, OpenRowContracts(s.rows), HeldContracts(s.b));
    RunAppend(restored, Moves(fills), ListSteps(a, cfg));
    RunAppend(s, ReadSteps(a, cfg), Moves(fills) + ListSteps(a, cfg));
  }

  lemma TwoSteps(s: State)
    requires !s.p.reconciled && s.p.recon.NotRunning?
    ensures Run(s, [ReconBegin, ReconRows(true)])
         == s.(p := s.p.(recon := Restoring(HeldContracts(s.b), HeldContracts(s.b).Keys, OpenRowContracts(s.rows))))
  {
    RunAppend(s, [ReconBegin], [ReconRows(true)]);
    assert [ReconBegin] + [ReconRows(true)] == [ReconBegin, ReconRows(true)];
    RunOne(s, ReconBegin);
    RunOne(Apply(s, ReconBegin), ReconRows(true));
  }
}
