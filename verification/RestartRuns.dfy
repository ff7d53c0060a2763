/** Runs in which a restart breaks an exit: one whose exit order had sold before the restart, and one
    whose exit order sells while the reconcile is under way. */
module RestartRuns {
  import opened Wrappers
  import opened OptionBroker
  import opened OptionProtocol
  import opened ExitConservation
  import opened ThreadFrames
  import RestartLimits

  function Venue(c: Contract, i: OrderId, held: nat, qty: nat, filled: nat, price: real, status: OrderStatus): Broker {
    Broker(map[i := Order(c, Sell, qty, filled, price, status)], map[c := held])
  }

  /** One contract, `held` of it at the venue, and its SELL `i` open with `filled` of `qty` sold. */
  function MidExit(c: Contract, i: OrderId, held: nat, qty: nat, filled: nat, price: real): State {
    State(Venue(c, i, held, qty, filled, price, PartiallyFilled), FRESH, [])
  }

  // ----- the position is read

  function ReadSteps(c: Contract, entry: (Terms, real)): seq<Step> {
    [ReconBegin, ReconRows(true), ReconRestore(c, Some(entry))]
  }

  function RestoredProc(c: Contract, held: nat, entry: (Terms, real)): Proc {
    FRESH.(positions := map[c := Position(entry.0, entry.1, held)], recon := Restoring(map[c := held], {}, {}))
  }

  lemma ReadsHeld(s: State, c: Contract, held: nat)
    requires s.p == FRESH && s.rows == [] && s.b.net == map[c := held] && held > 0
    ensures Apply(Apply(s, ReconBegin), ReconRows(true)) == s.(p := FRESH.(recon := Restoring(map[c := held], {c}, {})))
  {
    assert HeldContracts(s.b) == map[c := held];
    assert OpenRowContracts(s.rows) == {};
    assert map[c := held].Keys == {c};
  }

  lemma ReadsPosition(s: State, c: Contract, held: nat, entry: (Terms, real))
    requires s.p == FRESH && s.rows == [] && s.b.net == map[c := held] && held > 0
    ensures Run(s, ReadSteps(c, entry)) == s.(p := RestoredProc(c, held, entry))
  {
    RunThree(s, ReconBegin, ReconRows(true), ReconRestore(c, Some(entry)));
    ReadsHeld(s, c, held);
    assert {c} - {c} == {};
  }

  // ----- first run: the exit order had sold half before the restart

  function RegisterSteps(i: OrderId): seq<Step> {
    [ReconOrders(true), ReconRegister(i, None), ReconFinish]
  }

  function ExitCtx(c: Contract, entry: (Terms, real)): Ctx {
    SellCtx(c, Some(entry.0.symbol), "reconstructed_after_restart")
  }

  function ReconciledProc(c: Contract, i: OrderId, held: nat, entry: (Terms, real)): Proc {
    FRESH.(positions := map[c := Position(entry.0, entry.1, held)], reconciled := true, pending := map[i := ExitCtx(c, entry)])
  }

  lemma Lists(s: State, openRows: set<Contract>, held: map<Contract, int>)
    requires s.p.recon == Restoring(held, {}, openRows)
    ensures Apply(s, ReconOrders(true)) == s.(p := s.p.(recon := Registering(OpenOrders(s.b), openRows)))
  {
  }

  lemma RegistersOne(p: Proc, c: Contract, i: OrderId, o: Order, entry: (Terms, real))
    requires p.recon == Registering(map[i := o], {}) && o.side == Sell && o.contract == c && p.pending == map[]
    requires c in p.positions && p.positions[c].terms == entry.0
    ensures ReconRegisterStep(p, i, None) == p.(recon := Registering(map[], {}), pending := map[i := ExitCtx(c, entry)])
  {
    assert p.recon.orders - {i} == map[];
  }

  lemma Registers(c: Contract, i: OrderId, held: nat, qty: nat, filled: nat, entry: (Terms, real), price: real)
    ensures var s := MidExit(c, i, held, qty, filled, price).(p := RestoredProc(c, held, entry));
      Run(s, RegisterSteps(i)) == s.(p := ReconciledProc(c, i, held, entry))
  {
    var s := MidExit(c, i, held, qty, filled, price).(p := RestoredProc(c, held, entry));
    RunThree(s, ReconOrders(true), ReconRegister(i, None), ReconFinish);
    Lists(s, {}, map[c := held]);
    assert OpenOrders(s.b) == s.b.orders;
    var p1 := s.p.(recon := Registering(s.b.orders, {}));
    RegistersOne(p1, c, i, s.b.orders[i], entry);
    RestartLimits.FinishOnlyFlags(s.(p := ReconRegisterStep(p1, i, None)));
  }

  lemma ReadsThen(s: State, c: Contract, held: nat, entry: (Terms, real), rest: seq<Step>)
    requires s.p == FRESH && s.rows == [] && s.b.net == map[c := held] && held > 0
    ensures Run(s, ReadSteps(c, entry) + rest) == Run(s.(p := RestoredProc(c, held, entry)), rest)
  {
    RunAppend(s, ReadSteps(c, entry), rest);
    ReadsPosition(s, c, held, entry);
  }

  /** A venue that is not short, its SELL half filled, from which the restart ends out of balance. */
  lemma UnbalancedRestart(c: Contract, i: OrderId, entry: (Terms, real), price: real)
    ensures var s := MidExit(c, i, 1, 2, 1, price);
      var t := Run(s, ReadSteps(c, entry) + RegisterSteps(i));
      && s.b.NeverShort() && t == s.(p := ReconciledProc(c, i, 1, entry))
      && !Balanced(t.b, t.p.positions, t.p.pending, t.p.sells, c)
  {
    var s := MidExit(c, i, 1, 2, 1, price);
    ReadsThen(s, c, 1, entry, RegisterSteps(i));
    Registers(c, i, 1, 2, 1, entry, price);
    var t := Run(s, ReadSteps(c, entry) + RegisterSteps(i));
    assert ExitOf(t.p.pending, t.p.sells, c, i);
  }

  // and on to the end of the exit

  function LastPoll(i: OrderId, price: real): seq<Step> {
    [BrokerAdvance(i, 0, price, Canceled), PollBegin([i])] + [PollRead(true), PollCommit, PollStore(true)]
  }

  lemma Snapshots(c: Contract, i: OrderId, entry: (Terms, real), price: real)
    ensures var s := MidExit(c, i, 1, 2, 1, price).(p := ReconciledProc(c, i, 1, entry));
      Run(s, [BrokerAdvance(i, 0, price, Canceled), PollBegin([i])])
      == State(Venue(c, i, 1, 2, 1, price, Canceled), s.p.(poll := Polling([(i, ExitCtx(c, entry))], Ready)), [])
  {
    var s := MidExit(c, i, 1, 2, 1, price).(p := ReconciledProc(c, i, 1, entry));
    var s1 := Apply(s, BrokerAdvance(i, 0, price, Canceled));
    assert s1.b == Venue(c, i, 1, 2, 1, price, Canceled);
    var taken := PollBeginStep(s1.p, [i]).poll.todo;
    assert taken == [(i, ExitCtx(c, entry))];
    RunOne(s1, PollBegin([i]));
    assert [BrokerAdvance(i, 0, price, Canceled), PollBegin([i])][1..] == [PollBegin([i])];
  }

  lemma SettlesTwice(c: Contract, i: OrderId, entry: (Terms, real), price: real)
    ensures var s := State(Venue(c, i, 1, 2, 1, price, Canceled),
                           ReconciledProc(c, i, 1, entry).(poll := Polling([(i, ExitCtx(c, entry))], Ready)), []);
      var t := Run(s, [PollRead(true), PollCommit, PollStore(true)]);
      t.b == s.b && t.p.reconciled && t.p.positions == map[] && t.p.pending == map[]
  {
    var ctx := ExitCtx(c, entry);
    var p := ReconciledProc(c, i, 1, entry);
    var s := State(Venue(c, i, 1, 2, 1, price, Canceled), p.(poll := Polling([(i, ctx)], Ready)), []);
    RunThree(s, PollRead(true), PollCommit, PollStore(true));
    var s1 := s.(p := p.(poll := Polling([], Seen(i, ctx, s.b.orders[i]))));
    assert [(i, ctx)][1..] == [];
    assert Apply(s, PollRead(true)) == s1;
    assert p.positions - {c} == map[] && p.pending - {i} == map[];
  }

  lemma PollsToTheEnd(c: Contract, i: OrderId, entry: (Terms, real), price: real)
    ensures var t := Run(MidExit(c, i, 1, 2, 1, price).(p := ReconciledProc(c, i, 1, entry)), LastPoll(i, price));
      t.b.Net(c) == 1 && t.p.reconciled && t.p.positions == map[] && t.p.pending == map[]
  {
    var s := MidExit(c, i, 1, 2, 1, price).(p := ReconciledProc(c, i, 1, entry));
    RunAppend(s, [BrokerAdvance(i, 0, price, Canceled), PollBegin([i])], [PollRead(true), PollCommit, PollStore(true)]);
    Snapshots(c, i, entry, price);
    SettlesTwice(c, i, entry, price);
  }

  /** Cancelled at the venue with one contract still held, the half-sold exit order is settled in full
      against the rebuilt entry: the contract stays at the venue and nothing tracks it. */
  lemma RestartLosesPosition(c: Contract, i: OrderId, entry: (Terms, real), price: real)
    ensures var t := Run(MidExit(c, i, 1, 2, 1, price), ReadSteps(c, entry) + RegisterSteps(i) + LastPoll(i, price));
      t.b.Net(c) == 1 && t.p.reconciled && t.p.positions == map[] && t.p.pending == map[]
  {
    var s := MidExit(c, i, 1, 2, 1, price);
    UnbalancedRestart(c, i, entry, price);
    RunAppend(s, ReadSteps(c, entry) + RegisterSteps(i), LastPoll(i, price));
    PollsToTheEnd(c, i, entry, price);
  }

  // ----- second run: the exit order sells between the two reads

  function FillSteps(i: OrderId, price: real): seq<Step> {
    [BrokerAdvance(i, 2, price, Filled), ReconOrders(true), ReconFinish]
  }

  lemma FillsUnlisted(c: Contract, i: OrderId, entry: (Terms, real), price: real)
    ensures Run(MidExit(c, i, 2, 2, 0, price).(p := RestoredProc(c, 2, entry)), FillSteps(i, price))
         == State(Venue(c, i, 0, 2, 2, price, Filled), RestoredProc(c, 2, entry).(recon := NotRunning, reconciled := true), [])
  {
    var r := MidExit(c, i, 2, 2, 0, price).(p := RestoredProc(c, 2, entry));
    RunThree(r, BrokerAdvance(i, 2, price, Filled), ReconOrders(true), ReconFinish);
    var r1 := r.(b := Venue(c, i, 0, 2, 2, price, Filled));
    assert Apply(r, BrokerAdvance(i, 2, price, Filled)) == r1;
    Lists(r1, {}, map[c := 2]);
    assert OpenOrders(r1.b) == map[];
    RestartLimits.FinishOnlyFlags(r1.(p := r1.p.(recon := Registering(map[], {}))));
  }

  /** Nothing had filled before the restart, and the position was recovered; the SELL fills after the
      position is read and before the orders are. It is on no list, and its contracts stay tracked. */
  lemma FillsBetweenReads(c: Contract, i: OrderId, entry: (Terms, real), price: real)
    ensures var s := MidExit(c, i, 2, 2, 0, price); var t := Run(s, ReadSteps(c, entry) + FillSteps(i, price));
      && s.b.NeverShort() && s.b.orders[i].filled == 0
      && t.p.reconciled && t.b.Net(c) == 0 && Tracked(t.p.positions, c) == 2 && t.p.pending == map[]
      && !Balanced(t.b, t.p.positions, t.p.pending, t.p.sells, c)
  {
    var s := MidExit(c, i, 2, 2, 0, price);
    ReadsThen(s, c, 2, entry, FillSteps(i, price));
    FillsUnlisted(c, i, entry, price);
    var t := Run(s, ReadSteps(c, entry) + FillSteps(i, price));
    assert forall j :: !ExitOf(t.p.pending, t.p.sells, c, j);
  }
}
