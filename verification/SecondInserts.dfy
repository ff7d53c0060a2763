/** What may repeat after a restart: a BUY that an earlier process life has already reported and inserted
    gets a second row only if the reconcile found no open row of its contract. */
module SecondInserts {
  import opened Wrappers
  import opened OptionBroker
  import opened OptionProtocol
  import opened NeverShort
  import opened ExactlyOnce
  import opened ThreadFrames
  import opened EmptyExits
  import RestartReads

  /** The contracts with an open row, as the reconcile last read them. */
  function Reread(seen: set<Contract>, s: State, st: Step): set<Contract> {
    if st == ReconRows(true) && s.p.recon.ReadPositions? then OpenRowContracts(s.rows) else seen
  }

  function RowsSeen(s: State, steps: seq<Step>): set<Contract>
    decreases |steps|
  {
    if steps == [] then {}
    else
      var n := |steps| - 1;
      Reread(RowsSeen(s, steps[..n]), Run(s, steps[..n]), steps[n])
  }

  /** If this is the entry of `id`, its row counts as opened. */
  ghost predicate RowCounts(id: OrderId, i: OrderId, ctx: Ctx) {
    i == id && ctx.BuyCtx? ==> ctx.rowOpened
  }

  ghost predicate PendingCounts(pending: map<OrderId, Ctx>, id: OrderId) {
    forall i :: i in pending ==> RowCounts(id, i, pending[i])
  }

  ghost predicate PollCounts(poll: Poll, id: OrderId) {
    poll.Polling? ==>
      && (forall k :: 0 <= k < |poll.todo| ==> RowCounts(id, poll.todo[k].0, poll.todo[k].1))
      && (poll.at.Seen? ==> RowCounts(id, poll.at.id, poll.at.ctx))
      && (poll.at.Opening? ==> poll.at.id != id)
      && (poll.at.Storing? && poll.at.op.Some? && poll.at.op.value.OpenRow? ==> poll.at.op.value.id != id)
  }

  /** Nothing in the process is about to insert a row for `id`, and none has been. */
  ghost predicate NoInsert(p: Proc, id: OrderId) {
    PendingCounts(p.pending, id) && PollCounts(p.poll, id) && id !in p.inserts
  }

  ghost predicate ReconSeen(recon: Recon, seen: set<Contract>) {
    && (recon.Restoring? ==> recon.openRows == seen)
    && (recon.Registering? ==> recon.openRows == seen)
  }

  /** `id` is an order of before the process started. */
  ghost predicate Inherited(s: State, seen: set<Contract>, id: OrderId) {
    && id in s.b.orders && !Sending(s.p.buys, id) && ReconSeen(s.p.recon, seen)
    && (Fetched(s.p) && s.b.orders[id].contract in seen ==> NoInsert(s.p, id))
  }

  // ----- the steps

  lemma VenueInherits(s: State, seen: set<Contract>, id: OrderId, b': Broker)
    requires Inherited(s, seen, id) && Closes(s.b, b')
    ensures Inherited(s.(b := b'), seen, id)
  {
    assert Earlier(b', id, s.b.orders[id]);
  }

  lemma SettleSellCounts(p: Proc, id: OrderId, i: OrderId, ctx: Ctx, o: Order)
    requires NoInsert(p, id) && p.poll.Polling? && p.poll.at == Seen(i, ctx, o) && ctx.SellCtx?
    ensures NoInsert(SettleSell(p, i, ctx, o), id)
  {
  }

  /** The first fill of a BUY opens its row; a later one, or one whose row counts as opened, does not. */
  lemma SettleBuyCounts(p: Proc, id: OrderId, i: OrderId, ctx: Ctx, o: Order)
    requires NoInsert(p, id) && p.poll.Polling? && p.poll.at == Seen(i, ctx, o) && ctx.BuyCtx?
    ensures NoInsert(SettleBuy(p, i, ctx, o), id)
  {
  }

  lemma CommitCounts(p: Proc, id: OrderId)
    requires NoInsert(p, id)
    ensures NoInsert(PollCommitStep(p), id)
  {
    if p.poll.Polling? && p.poll.at.Seen? {
      var i, ctx, o := p.poll.at.id, p.poll.at.ctx, p.poll.at.order;
      if ctx.SellCtx? { SettleSellCounts(p, id, i, ctx, o); } else { SettleBuyCounts(p, id, i, ctx, o); }
    }
  }

  lemma SnapshotCounts(p: Proc, id: OrderId, ids: seq<OrderId>)
    requires NoInsert(p, id)
    ensures NoInsert(PollBeginStep(p, ids), id)
  {
  }

  lemma ReadCounts(b: Broker, p: Proc, id: OrderId, ok: bool)
    requires NoInsert(p, id)
    ensures NoInsert(PollReadStep(b, p, ok), id)
  {
  }

  lemma StoreCounts(s: State, id: OrderId, ok: bool)
    requires NoInsert(s.p, id)
    ensures NoInsert(PollRecheckStep(s.p), id) && NoInsert(PollStoreStep(s, ok).p, id)
  {
  }

  lemma PollStepCounts(s: State, id: OrderId, st: Step)
    requires NoInsert(s.p, id) && IsPollStep(st)
    ensures NoInsert(Apply(s, st).p, id)
  {
    match st
    case PollBegin(ids) => SnapshotCounts(s.p, id, ids);
    case PollRead(ok) => ReadCounts(s.b, s.p, id, ok);
    case PollCommit => CommitCounts(s.p, id);
    case PollRecheck => StoreCounts(s, id, true);
    case PollStore(ok) => StoreCounts(s, id, ok);
  }

  lemma RegisterCounts(p: Proc, id: OrderId, tid: nat)
    requires NoInsert(p, id) && !Sending(p.buys, id)
    ensures NoInsert(BuyRegisterStep(p, tid), id) && !Sending(BuyRegisterStep(p, tid).buys, id)
  {
    assert tid in p.buys ==> p.buys[tid].at != Sent(id);
  }

  lemma SellStepCounts(s: State, id: OrderId, st: Step)
    requires NoInsert(s.p, id) && IsSellStep(st)
    ensures NoInsert(Apply(s, st).p, id)
  {
  }

  lemma BuyStepCounts(s: State, id: OrderId, st: Step)
    requires id in s.b.orders && !Sending(s.p.buys, id) && IsBuyStep(st)
    ensures !Sending(Apply(s, st).p.buys, id) && (NoInsert(s.p, id) ==> NoInsert(Apply(s, st).p, id))
  {
    if st.BuyRegister? {
      if NoInsert(s.p, id) { RegisterCounts(s.p, id, st.tid); }
    } else if !st.BuySubmit? {
      BuyCheckStepChecks(s, st);
    }
  }

  lemma ReconRegisterCounts(b: Broker, p: Proc, seen: set<Contract>, id: OrderId, i: OrderId, parsed: Option<Terms>)
    requires NoInsert(p, id) && ReconSeen(p.recon, seen) && ReconOk(b, p.recon) && id in b.orders && b.orders[id].contract in seen
    ensures NoInsert(ReconRegisterStep(p, i, parsed), id)
  {
    if p.recon.Registering? && i in p.recon.orders {
      assert Earlier(b, i, p.recon.orders[i]);
    }
  }

  /** When the list has just been fetched nothing is pending, polled, reported or inserted yet. */
  lemma FetchCounts(s: State, id: OrderId)
    requires OnceInv(s) && !Fetched(s.p)
    ensures NoInsert(s.p, id)
  {
  }

  lemma RestoreLists(p: Proc, seen: set<Contract>, c: Contract, entry: Option<(Terms, real)>)
    requires ReconSeen(p.recon, seen)
    ensures var p' := ReconRestoreStep(p, c, entry); p'.pending == p.pending && ReconSeen(p'.recon, seen)
  {
  }

  lemma OrdersList(s: State, seen: set<Contract>, ok: bool)
    requires ReconSeen(s.p.recon, seen)
    ensures var p' := ReconOrdersStep(s.b, s.p, ok); p'.pending == s.p.pending && ReconSeen(p'.recon, seen)
  {
  }

  lemma RowsList(s: State, seen: set<Contract>, ok: bool)
    requires ReconSeen(s.p.recon, seen)
    ensures var p' := ReconRowsStep(s, ok); p'.pending == s.p.pending && ReconSeen(p'.recon, Reread(seen, s, ReconRows(ok)))
  {
  }

  lemma NothingListed(p: Proc, i: OrderId, parsed: Option<Terms>)
    requires !Fetched(p)
    ensures ReconRegisterStep(p, i, parsed) == p && ReconFinishStep(p) == p
  {
  }

  lemma FetchOnlyLists(s: State, seen: set<Contract>, st: Step)
    requires !Fetched(s.p) && IsReconStep(st) && ReconSeen(s.p.recon, seen)
    ensures var t := Apply(s, st); t.b == s.b && t.p.pending == s.p.pending && ReconSeen(t.p.recon, Reread(seen, s, st))
  {
    match st
    case ReconBegin =>
    case ReconRows(ok) => RowsList(s, seen, ok);
    case ReconRestore(c, entry) => RestoreLists(s.p, seen, c, entry);
    case ReconOrders(ok) => OrdersList(s, seen, ok);
    case ReconRegister(i, parsed) => NothingListed(s.p, i, parsed);
    case ReconFinish => assert ReconFinishStep(s.p) == s.p;
  }

  lemma FetchInherits(s: State, seen: set<Contract>, id: OrderId, st: Step)
    requires OnceInv(s) && !Fetched(s.p) && Inherited(s, seen, id) && IsReconStep(st)
    ensures Inherited(Apply(s, st), Reread(seen, s, st), id)
  {
    ReconTouches(s, st);
    FetchCounts(s, id);
    FetchOnlyLists(s, seen, st);
  }

  lemma RegisterInherits(s: State, seen: set<Contract>, id: OrderId, i: OrderId, parsed: Option<Terms>)
    requires Inv(s) && Fetched(s.p) && Inherited(s, seen, id)
    ensures Inherited(Apply(s, ReconRegister(i, parsed)), seen, id)
  {
    ReconTouches(s, ReconRegister(i, parsed));
    if s.b.orders[id].contract in seen {
      ReconRegisterCounts(s.b, s.p, seen, id, i, parsed);
    }
  }

  lemma ReconStepInherits(s: State, seen: set<Contract>, id: OrderId, st: Step)
    requires Inv(s) && OnceInv(s) && Inherited(s, seen, id) && IsReconStep(st)
    ensures Inherited(Apply(s, st), Reread(seen, s, st), id)
  {
    if !Fetched(s.p) {
      FetchInherits(s, seen, id, st);
    } else if st.ReconRegister? {
      RegisterInherits(s, seen, id, st.id, st.parsed);
    }
  }

  lemma StepInherits(s: State, seen: set<Contract>, id: OrderId, st: Step)
    requires Inv(s) && OnceInv(s) && Inherited(s, seen, id) && !st.Crash?
    ensures Inherited(Apply(s, st), Reread(seen, s, st), id)
  {
    RestartReads.FlagMoves(s, st);
    if IsReconStep(st) {
      ReconStepInherits(s, seen, id, st);
    } else if IsPollStep(st) {
      PollTouches(s, st);
      if NoInsert(s.p, id) { PollStepCounts(s, id, st); }
    } else if IsBuyStep(st) {
      BuyTouches(s, st);
      BuyStepCloses(s, st);
      BuyStepCounts(s, id, st);
      assert Earlier(Apply(s, st).b, id, s.b.orders[id]);
    } else if IsSellStep(st) {
      SellTouches(s, st);
      SellStepCloses(s, st);
      if NoInsert(s.p, id) { SellStepCounts(s, id, st); }
      assert Earlier(Apply(s, st).b, id, s.b.orders[id]);
    } else {
      VenueStepCloses(s.b, st.id, st.n, st.avgPrice, st.status);
      VenueInherits(s, seen, id, Apply(s, st).b);
    }
  }

  // ----- every run of the later life

  lemma {:induction false} RunInherits(b: Broker, rows: seq<Row>, steps: seq<Step>, id: OrderId)
    requires b.NeverShort() && id in b.orders && OneLife(steps)
    ensures var s := State(b, FRESH, rows); Inherited(Run(s, steps), RowsSeen(s, steps), id)
    decreases |steps|
  {
    var s := State(b, FRESH, rows);
    if steps != [] {
      var init, last := steps[..|steps| - 1], steps[|steps| - 1];
      assert steps == init + [last];
      RunInherits(b, rows, init, id);
      RunKeepsOnce(s, init);
      RunSnoc(s, init, last);
      StepInherits(Run(s, init), RowsSeen(s, init), id, last);
    }
  }

  /** The main result: an order of before the restart gets a row of its own in the new process life only if
      the reconcile, when it read the rows, found no open one of its contract. */
  lemma SecondInsertOnlyWithoutRow(b: Broker, rows: seq<Row>, steps: seq<Step>, id: OrderId)
    requires b.NeverShort() && id in b.orders && OneLife(steps)
    ensures var s := State(b, FRESH, rows);
      var t := Run(s, steps);
      id in t.p.inserts ==> id in t.b.orders && t.b.orders[id].contract !in RowsSeen(s, steps)
  {
    var s := State(b, FRESH, rows);
    RunInherits(b, rows, steps, id);
    RunKeepsOnce(s, steps);
    if id in Run(s, steps).p.inserts {
      assert Fetched(Run(s, steps).p);
    }
  }
}
