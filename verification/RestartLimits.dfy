/** What a restart does to an exit under way. The rebuilt entry is the venue's position at one read, the
    exit order is found again at another, and the rows are those of before: exactly when the three add
    up, whatever the venue and the fill poll do meanwhile and however many attempts fail first. */
module RestartLimits {
  import opened Wrappers
  import opened OptionBroker
  import opened OptionProtocol
  import opened NeverShort
  import opened ExactlyOnce
  import opened ExitConservation
  import opened OpenRows
  import opened RestartReads
  import opened ThreadFrames

  /** A venue that is not short has one exit order at most. */
  lemma ExitExists(b: Broker, c: Contract) returns (x: Option<OrderId>)
    requires b.NeverShort()
    ensures TheExit(b, c, x)
  {
    if i :| b.OpenSell(i) && b.orders[i].contract == c {
      x := Some(i);
    } else {
      x := None;
    }
  }

  // ----- the quantity

  /** With an entry restored and the exit order still open when the orders were listed: it had filled
      nothing when the position was read, or the poll has since settled it with nothing left to hold.
      With the order over by then: it filled nothing between the two reads. With no entry restored:
      there is nothing left to track. */
  ghost predicate Recounts(b: Broker, pending: Pending, h: Reads, c: Contract, x: Option<OrderId>) {
    if h.entered.None? then b.Net(c) == 0 && (x.Some? && x.value in pending ==> Sold(b, x) == 0)
    else if Listed(h, x) then Sold(h.entered.value.0, x) == 0 || (x.value !in pending && b.Net(c) == 0)
    else h.listed.Some? && Sold(h.entered.value.0, x) == Sold(h.listed.value, x)
  }

  lemma ExitsLeft(b0: Broker, s: State, h: Reads, c: Contract, x: Option<OrderId>)
    requires Rereading(b0, s, h, c, x) && Inv(s)
    ensures forall i :: ExitOf(s.p.pending, s.p.sells, c, i) <==> x == Some(i) && i in s.p.pending
  {
    assert s.p.sells == map[];
    if x.Some? && x.value in s.p.pending {
      ExitAtVenue(b0, s.b, c, x);
      assert Names(s.b, x.value, s.p.pending[x.value]);
    }
    forall i | i in s.p.pending && s.p.pending[i].contract == c ensures x == Some(i) {
      assert IsExit(h, x, c, i, s.p.pending[i]);
    }
  }

  lemma OverStays(b: Broker, h: Reads, c: Contract, x: Option<OrderId>)
    requires h.listed.Some? && Onward(h.listed.value, b, c, x) && !Listed(h, x)
    ensures Sold(b, x) == Sold(h.listed.value, x)
  {
    if x.Some? && x.value in h.listed.value.orders {
      assert Earlier(b, x.value, h.listed.value.orders[x.value]);
    }
  }

  /** With the exit order pending, or with none. */
  ghost predicate Adds(b: Broker, positions: Positions, c: Contract, x: Option<OrderId>, pends: bool) {
    && (c in positions ==> positions[c].qty > 0)
    && Tracked(positions, c) == b.Net(c) + (if pends then Sold(b, x) else 0)
  }

  lemma BalancedIffAdds(b0: Broker, s: State, h: Reads, c: Contract, x: Option<OrderId>)
    requires Rereading(b0, s, h, c, x) && Inv(s)
    ensures Balanced(s.b, s.p.positions, s.p.pending, s.p.sells, c)
      <==> Adds(s.b, s.p.positions, c, x, x.Some? && x.value in s.p.pending)
  {
    ExitsLeft(b0, s, h, c, x);
    if x.Some? && x.value in s.p.pending {
      ExitAtVenue(b0, s.b, c, x);
      assert ExitOf(s.p.pending, s.p.sells, c, x.value);
    } else {
      assert forall i :: !ExitOf(s.p.pending, s.p.sells, c, i);
    }
  }

  lemma AddsIffRecounts(b0: Broker, b: Broker, p: Proc, h: Reads, c: Contract, x: Option<OrderId>)
    requires Venues(b0, b, h, c, x) && TrackedAsRead(b, p, h, c, x) && b.Net(c) >= 0 && Finishes(p, ReconFinish) && h.listed.Some?
    requires x.Some? && x.value in p.pending ==> Listed(h, x)
    ensures Adds(b, p.positions, c, x, x.Some? && x.value in p.pending) <==> Recounts(b, p.pending, h, c, x)
  {
    if !Listed(h, x) {
      OverStays(b, h, c, x);
    }
  }

  lemma PendingIsListed(b0: Broker, b: Broker, pending: Pending, h: Reads, c: Contract, x: Option<OrderId>)
    requires TheExit(b0, c, x) && Onward(b0, b, c, x) && PendingNamed(b, pending) && ExitPends(pending, h, c, x)
    requires x.Some? && x.value in pending
    ensures Listed(h, x)
  {
    ExitAtVenue(b0, b, c, x);
    assert Names(b, x.value, pending[x.value]) && IsExit(h, x, c, x.value, pending[x.value]);
  }

  lemma RereadBalancedIff(b0: Broker, s: State, h: Reads, c: Contract, x: Option<OrderId>)
    requires Rereading(b0, s, h, c, x) && Inv(s) && Finishes(s.p, ReconFinish)
    ensures Balanced(s.b, s.p.positions, s.p.pending, s.p.sells, c) <==> Recounts(s.b, s.p.pending, h, c, x)
  {
    BalancedIffAdds(b0, s, h, c, x);
    if x.Some? && x.value in s.p.pending {
      PendingIsListed(b0, s.b, s.p.pending, h, c, x);
    }
    AddsIffRecounts(b0, s.b, s.p, h, c, x);
  }

  lemma FinishOnlyFlags(s: State)
    requires Finishes(s.p, ReconFinish)
    ensures Apply(s, ReconFinish) == s.(p := s.p.(recon := NotRunning, reconciled := true))
  {
  }

  lemma FinishBalancedIff(b0: Broker, s: State, h: Reads, c: Contract, x: Option<OrderId>)
    requires Rereading(b0, s, h, c, x) && Inv(s) && Finishes(s.p, ReconFinish)
    ensures var t := Apply(s, ReconFinish);
      t.p.reconciled && (Balanced(t.b, t.p.positions, t.p.pending, t.p.sells, c) <==> Recounts(t.b, t.p.pending, h, c, x))
  {
    FinishOnlyFlags(s);
    RereadBalancedIff(b0, s, h, c, x);
  }

  /** The main result, for the quantity: from any venue that is not short, with the BUYs of the contract
      over, run any steps of one process life up to the first success of the reconcile: failed
      attempts, venue moves and polls between any two of its steps. What is then tracked accounts for
      the exit exactly when the reads recount it. */
  lemma RestartBalancedIff(b0: Broker, rows: seq<Row>, steps: seq<Step>, c: Contract, x: Option<OrderId>)
    requires b0.NeverShort() && NoOpenBuy(b0, c) && TheExit(b0, c, x) && OneLife(steps)
    requires var p := Run(State(b0, FRESH, rows), steps).p; !p.reconciled && Finishes(p, ReconFinish)
    ensures var s := Run(State(b0, FRESH, rows), steps); var t := Apply(s, ReconFinish);
      && t.p.reconciled
      && (Balanced(t.b, t.p.positions, t.p.pending, t.p.sells, c)
          <==> Recounts(t.b, t.p.pending, ReadsOf(State(b0, FRESH, rows), steps, c), c, x))
  {
    var s0 := State(b0, FRESH, rows);
    RunRereads(b0, rows, steps, c, x);
    FinishBalancedIff(b0, Run(s0, steps), ReadsOf(s0, steps, c), c, x);
  }

  // ----- the rows

  /** The poll has settled the exit order with something sold. */
  ghost predicate SettledWithFill(b: Broker, p: Proc, h: Reads, x: Option<OrderId>) {
    ExitSettled(p, h, x) && Sold(b, x) > 0
  }

  function EntryRow(positions: Positions, c: Contract): (real, nat)
    requires c in positions
  {
    (positions[c].entryPremium, positions[c].qty)
  }

  /** The open rows of `c` are those of the start until the poll settles a filled exit order. */
  ghost predicate RowsAsRead(rows0: seq<Row>, s: State, h: Reads, c: Contract, x: Option<OrderId>) {
    OpenRowsOf(RowsToBe(s.rows, s.p.poll), c) ==
    if !SettledWithFill(s.b, s.p, h, x) then OpenRowsOf(rows0, c)
    else if c in s.p.positions then Restated(OpenRowsOf(rows0, c), EntryRow(s.p.positions, c))
    else []
  }

  ghost predicate SameEntry(p: Proc, p': Proc, c: Contract) {
    (c in p'.positions <==> c in p.positions) && (c in p.positions ==> p'.positions[c] == p.positions[c])
  }

  lemma RowsStay(rows0: seq<Row>, s: State, h: Reads, t: State, h': Reads, c: Contract, x: Option<OrderId>)
    requires RowsAsRead(rows0, s, h, c, x)
    requires OpenRowsOf(RowsToBe(t.rows, t.p.poll), c) == OpenRowsOf(RowsToBe(s.rows, s.p.poll), c)
    requires SettledWithFill(t.b, t.p, h', x) <==> SettledWithFill(s.b, s.p, h, x)
    requires SettledWithFill(s.b, s.p, h, x) ==> SameEntry(s.p, t.p, c)
    ensures RowsAsRead(rows0, t, h', c, x)
  {
  }

  lemma AdvanceKeepsRows(b0: Broker, rows0: seq<Row>, s: State, h: Reads, c: Contract, x: Option<OrderId>,
                         id: OrderId, n: nat, avgPrice: real, status: OrderStatus)
    requires Rereading(b0, s, h, c, x) && RowsAsRead(rows0, s, h, c, x)
    ensures RowsAsRead(rows0, Apply(s, BrokerAdvance(id, n, avgPrice, status)), h, c, x)
  {
    var b' := s.b.Advance(id, n, avgPrice, status);
    assert ExitSettled(s.p, h, x) ==> b'.orders[x.value] == s.b.orders[x.value];
    RowsStay(rows0, s, h, s.(b := b'), h, c, x);
  }

  /** While the orders are not listed the exit order cannot be settled, and at the listing it is on the list. */
  lemma NotSettledYet(p: Proc, h: Reads, x: Option<OrderId>)
    requires AsRead(p.recon, h)
    requires p.recon.Registering? ==> h.listed.Some? && p.recon.orders == OpenOrders(h.listed.value)
    ensures !ExitSettled(p, h, x)
  {
  }

  lemma ReconSettles(s: State, h: Reads, c: Contract, x: Option<OrderId>, st: Step)
    requires AsRead(s.p.recon, h) && IsReconStep(st) && !st.ReconRegister? && !Finishes(s.p, st)
    ensures var t := Apply(s, st); var h' := Note(h, s, c, st);
      (t == s && h' == h) || (!ExitSettled(s.p, h, x) && !ExitSettled(t.p, h', x) && t.rows == s.rows && t.p.poll == s.p.poll)
  {
    ReconTouches(s, st);
    if !s.p.recon.Registering? {
      NotSettledYet(s.p, h, x);
    }
  }

  lemma PendingMoves(rows0: seq<Row>, s: State, h: Reads, c: Contract, x: Option<OrderId>, p': Proc)
    requires RowsAsRead(rows0, s, h, c, x) && p' == s.p.(pending := p'.pending, recon := p'.recon)
    requires ExitSettled(p', h, x) <==> ExitSettled(s.p, h, x)
    ensures RowsAsRead(rows0, s.(p := p'), h, c, x)
  {
  }

  lemma RegisterKeepsRows(b0: Broker, rows0: seq<Row>, s: State, h: Reads, c: Contract, x: Option<OrderId>, id: OrderId, parsed: Option<Terms>)
    requires Rereading(b0, s, h, c, x) && RowsAsRead(rows0, s, h, c, x)
    ensures RowsAsRead(rows0, Apply(s, ReconRegister(id, parsed)), h, c, x)
  {
    if s.p.recon.Registering? && id in s.p.recon.orders {
      ListedExit(b0, s.p.recon, h, c, x, id);
      RegistersSettled(s.p, h, x, id, parsed);
      RegistersExit(s.p, h, c, x, id, parsed);
      PendingMoves(rows0, s, h, c, x, ReconRegisterStep(s.p, id, parsed));
    }
  }

  /** Before the listing, and at it, nothing is settled, so the rows are still those of the start. */
  lemma RebuildKeepsRows(rows0: seq<Row>, s: State, h: Reads, c: Contract, x: Option<OrderId>, t: State, h': Reads)
    requires RowsAsRead(rows0, s, h, c, x) && !ExitSettled(s.p, h, x) && !ExitSettled(t.p, h', x)
    requires t.rows == s.rows && t.p.poll == s.p.poll
    ensures RowsAsRead(rows0, t, h', c, x)
  {
  }

  lemma ReconKeepsRows(b0: Broker, rows0: seq<Row>, s: State, h: Reads, c: Contract, x: Option<OrderId>, st: Step)
    requires Rereading(b0, s, h, c, x) && RowsAsRead(rows0, s, h, c, x) && IsReconStep(st) && !Finishes(s.p, st)
    ensures RowsAsRead(rows0, Apply(s, st), Note(h, s, c, st), c, x)
  {
    if st.ReconRegister? {
      RegisterKeepsRows(b0, rows0, s, h, c, x, st.id, st.parsed);
    } else {
      ReconSettles(s, h, c, x, st);
      if Apply(s, st) != s || Note(h, s, c, st) != h {
        RebuildKeepsRows(rows0, s, h, c, x, Apply(s, st), Note(h, s, c, st));
      }
    }
  }

  lemma RecheckRows(rows: seq<Row>, p: Proc, c: Contract)
    requires NoOpening(p.poll, c)
    ensures OpenRowsOf(RowsToBe(rows, PollRecheckStep(p).poll), c) == OpenRowsOf(RowsToBe(rows, p.poll), c)
  {
    var poll' := PollRecheckStep(p).poll;
    if p.poll.Polling? && p.poll.at.Opening? && poll'.at.Storing? && poll'.at.op.Some? {
      OtherRowsStay(rows, poll'.at.op.value, c);
    }
  }

  lemma StoreRows(s: State, c: Contract)
    ensures var t := PollStoreStep(s, true); RowsToBe(t.rows, t.p.poll) == RowsToBe(s.rows, s.p.poll)
  {
  }

  lemma SnapshotRows(b: Broker, rows: seq<Row>, p: Proc, ids: seq<OrderId>, ok: bool)
    ensures RowsToBe(rows, PollBeginStep(p, ids).poll) == RowsToBe(rows, p.poll)
    ensures RowsToBe(rows, PollReadStep(b, p, ok).poll) == RowsToBe(rows, p.poll)
  {
  }

  lemma QuietPollRows(s: State, c: Contract, st: Step)
    requires NoOpening(s.p.poll, c) && IsPollStep(st) && !st.PollCommit? && st != PollStore(false)
    ensures var t := Apply(s, st); OpenRowsOf(RowsToBe(t.rows, t.p.poll), c) == OpenRowsOf(RowsToBe(s.rows, s.p.poll), c)
  {
    match st
    case PollBegin(ids) => SnapshotRows(s.b, s.rows, s.p, ids, true);
    case PollRead(ok) => SnapshotRows(s.b, s.rows, s.p, [], ok);
    case PollRecheck => RecheckRows(s.rows, s.p, c);
    case PollStore(_) => StoreRows(s, c);
  }

  lemma PollKeepsRows(b0: Broker, rows0: seq<Row>, s: State, h: Reads, c: Contract, x: Option<OrderId>, st: Step)
    requires Rereading(b0, s, h, c, x) && PollNamed(s.b, s.p.poll) && RowsAsRead(rows0, s, h, c, x)
    requires IsPollStep(st) && !st.PollCommit? && st != PollStore(false)
    ensures RowsAsRead(rows0, Apply(s, st), h, c, x)
  {
    QuietPollRows(s, c, st);
    OnlyPolls(s, h, c, x, st);
    RowsStay(rows0, s, h, Apply(s, st), h, c, x);
  }

  lemma SettleRows(rows: seq<Row>, p: Proc, c: Contract, id: OrderId, ctx: Ctx, o: Order)
    requires p.poll.Polling? && p.poll.at == Seen(id, ctx, o) && ctx.SellCtx? && ctx.contract == c && !o.Open() && id in p.pending
    ensures var p' := SettleSell(p, id, ctx, o);
      OpenRowsOf(RowsToBe(rows, p'.poll), c) ==
      if o.filled == 0 then OpenRowsOf(rows, c)
      else if c in p'.positions then Restated(OpenRowsOf(rows, c), EntryRow(p'.positions, c))
      else []
  {
    if o.filled > 0 {
      if c in p.positions && p.positions[c].qty > o.filled {
        UpdateRestates(rows, c, p.positions[c].entryPremium, p.positions[c].qty - o.filled, c);
      } else {
        CloseEmpties(rows, c, ctx.reason, o.avgPrice, c);
      }
    }
  }

  lemma SettledRows(rows0: seq<Row>, s: State, h: Reads, c: Contract, id: OrderId, ctx: Ctx, o: Order)
    requires s.p.poll.Polling? && s.p.poll.at == Seen(id, ctx, o) && ctx.SellCtx? && ctx.contract == c && !o.Open() && id in s.p.pending
    requires Listed(h, Some(id)) && (s.p.recon.Registering? ==> id !in s.p.recon.orders) && Sold(s.b, Some(id)) == o.filled
    requires RowsAsRead(rows0, s, h, c, Some(id))
    ensures RowsAsRead(rows0, s.(p := SettleSell(s.p, id, ctx, o)), h, c, Some(id))
  {
    var p' := SettleSell(s.p, id, ctx, o);
    SettleRows(s.rows, s.p, c, id, ctx, o);
    assert p'.pending == s.p.pending - {id} && p'.recon == s.p.recon;
    assert !ExitSettled(s.p, h, Some(id)) && ExitSettled(p', h, Some(id));
  }

  lemma CommitExitRows(b0: Broker, rows0: seq<Row>, s: State, h: Reads, c: Contract, x: Option<OrderId>, id: OrderId, ctx: Ctx, o: Order)
    requires Rereading(b0, s, h, c, x) && s.p.poll.Polling? && s.p.poll.at == Seen(id, ctx, o) && ctx.contract == c
    requires Earlier(s.b, id, o) && (s.p.recon.Registering? && id in s.p.pending ==> id !in s.p.recon.orders)
    requires RowsAsRead(rows0, s, h, c, x)
    ensures RowsAsRead(rows0, Apply(s, PollCommit), h, c, x)
  {
    assert IsExit(h, x, c, id, ctx);
    if !o.Open() && id in s.p.pending {
      SettledRows(rows0, s, h, c, id, ctx, o);
    } else {
      TakesNothingOver(s.p, id, ctx, o);
      CommitLeavesSeen(s.p);
      RowsStay(rows0, s, h, Apply(s, PollCommit), h, c, x);
    }
  }

  lemma CommitOtherRows(b0: Broker, rows0: seq<Row>, s: State, h: Reads, c: Contract, x: Option<OrderId>, id: OrderId, ctx: Ctx, o: Order)
    requires Rereading(b0, s, h, c, x) && s.p.poll.Polling? && s.p.poll.at == Seen(id, ctx, o) && ctx.contract != c
    requires Names(s.b, id, ctx) && PendingNamed(s.b, s.p.pending) && RowsAsRead(rows0, s, h, c, x)
    ensures RowsAsRead(rows0, Apply(s, PollCommit), h, c, x)
  {
    assert id in s.p.pending ==> Names(s.b, id, s.p.pending[id]);
    SettleFrame(s.p, c, id, ctx, o);
    OtherStays(b0, s, h, c, x, id, ctx);
    CommitLeavesSeen(s.p);
    var p' := PollCommitStep(s.p);
    if p'.poll.at.Storing? && p'.poll.at.op.Some? {
      OtherRowsStay(s.rows, p'.poll.at.op.value, c);
    }
    RowsStay(rows0, s, h, s.(p := p'), h, c, x);
  }

  lemma CommitKeepsRows(b0: Broker, rows0: seq<Row>, s: State, h: Reads, c: Contract, x: Option<OrderId>)
    requires Rereading(b0, s, h, c, x) && Inv(s) && OnceInv(s) && RowsAsRead(rows0, s, h, c, x)
    ensures RowsAsRead(rows0, Apply(s, PollCommit), h, c, x)
  {
    if s.p.poll.Polling? && s.p.poll.at.Seen? {
      var id, ctx, o := s.p.poll.at.id, s.p.poll.at.ctx, s.p.poll.at.order;
      assert Names(s.b, id, ctx) && Earlier(s.b, id, o);
      if ctx.contract == c {
        assert id in s.p.pending ==> Met(EventIds(s.p.events), s.p.pending, s.p.poll, id);
        CommitExitRows(b0, rows0, s, h, c, x, id, ctx, o);
      } else {
        CommitOtherRows(b0, rows0, s, h, c, x, id, ctx, o);
      }
    }
  }

  lemma StepKeepsRows(b0: Broker, rows0: seq<Row>, s: State, h: Reads, c: Contract, x: Option<OrderId>, st: Step)
    requires Rereading(b0, s, h, c, x) && Inv(s) && OnceInv(s) && RowsAsRead(rows0, s, h, c, x)
    requires !st.Crash? && st != PollStore(false) && !Finishes(s.p, st)
    ensures RowsAsRead(rows0, Apply(s, st), Note(h, s, c, st), c, x)
  {
    if IsReconStep(st) {
      ReconKeepsRows(b0, rows0, s, h, c, x, st);
    } else {
      NotesReads(h, s, c, st);
      if st.PollCommit? {
        CommitKeepsRows(b0, rows0, s, h, c, x);
      } else if IsPollStep(st) {
        PollKeepsRows(b0, rows0, s, h, c, x, st);
      } else if st.BrokerAdvance? {
        AdvanceKeepsRows(b0, rows0, s, h, c, x, st.id, st.n, st.avgPrice, st.status);
      } else {
        CallsIdle(s, st);
      }
    }
  }

  /** No database write of the run is lost. */
  ghost predicate AllWritten(steps: seq<Step>) {
    forall k :: 0 <= k < |steps| ==> steps[k] != PollStore(false)
  }

  lemma {:induction false} RunKeepsRows(b0: Broker, rows: seq<Row>, steps: seq<Step>, c: Contract, x: Option<OrderId>)
    requires b0.NeverShort() && NoOpenBuy(b0, c) && TheExit(b0, c, x) && OneLife(steps) && AllWritten(steps)
    requires !Run(State(b0, FRESH, rows), steps).p.reconciled
    ensures var s := State(b0, FRESH, rows); RowsAsRead(rows, Run(s, steps), ReadsOf(s, steps, c), c, x)
    decreases |steps|
  {
    var s := State(b0, FRESH, rows);
    if steps != [] {
      var init, last := steps[..|steps| - 1], steps[|steps| - 1];
      UnflaggedBefore(s, steps);
      RunRereads(b0, rows, init, c, x);
      RunKeepsRows(b0, rows, init, c, x);
      StepKeepsRows(b0, rows, Run(s, init), ReadsOf(s, init, c), c, x, last);
    }
  }

  /** The open rows of the start are those of the restored entry; or, where the poll has settled a filled
      exit order, there is one to update or nothing left to keep it open for. */
  ghost predicate RowsRecount(rows0: seq<Row>, b: Broker, pending: Pending, h: Reads, c: Contract, x: Option<OrderId>) {
    if Listed(h, x) && x.value !in pending && Sold(b, x) > 0 then
      EnteredQty(h, c) <= Sold(b, x) || |OpenRowsOf(rows0, c)| == 1
    else
      OpenRowsOf(rows0, c) == if h.entered.Some? then [(h.entered.value.1, EnteredQty(h, c))] else []
  }

  lemma RestatedOne(list: seq<(real, nat)>, v: (real, nat))
    ensures Restated(list, v) == [v] <==> |list| == 1
  {
  }

  lemma RowsMatchIffRecount(rows0: seq<Row>, s: State, h: Reads, c: Contract, x: Option<OrderId>)
    requires RowsAsRead(rows0, s, h, c, x) && TrackedAsRead(s.b, s.p, h, c, x) && Finishes(s.p, ReconFinish)
    requires h.entered.Some? ==> EnteredQty(h, c) > 0
    ensures RowsMatch(RowsToBe(s.rows, s.p.poll), c, s.p.positions) <==> RowsRecount(rows0, s.b, s.p.pending, h, c, x)
  {
    RowsMatchIff(RowsToBe(s.rows, s.p.poll), c, s.p.positions);
    if c in s.p.positions {
      RestatedOne(OpenRowsOf(rows0, c), EntryRow(s.p.positions, c));
    }
  }

  lemma NothingBuys(b0: Broker, s: State, h: Reads, c: Contract, x: Option<OrderId>)
    requires Rereading(b0, s, h, c, x) && PhasesOk(s.p)
    ensures BuysOver(s.b, s.p, c)
  {
    forall i | i in s.b.orders && s.b.orders[i].side == Buy && s.b.orders[i].contract == c ensures !s.b.orders[i].Open() {
      if s.b.orders[i].Open() { OnlyExitOpen(b0, s.b, c, x, i); }
    }
    forall i | i in s.p.pending ensures !(s.p.pending[i].BuyCtx? && s.p.pending[i].contract == c) {
      assert IsExit(h, x, c, i, s.p.pending[i]);
    }
  }

  lemma RereadExitIff(b0: Broker, rows0: seq<Row>, s: State, h: Reads, c: Contract, x: Option<OrderId>)
    requires Rereading(b0, s, h, c, x) && Inv(s) && Finishes(s.p, ReconFinish) && RowsAsRead(rows0, s, h, c, x)
    ensures ExitInv(s.(p := s.p.(recon := NotRunning, reconciled := true)), c)
      <==> Recounts(s.b, s.p.pending, h, c, x) && RowsRecount(rows0, s.b, s.p.pending, h, c, x)
  {
    RereadBalancedIff(b0, s, h, c, x);
    RowsMatchIffRecount(rows0, s, h, c, x);
    NothingBuys(b0, s, h, c, x);
    ExitsLeft(b0, s, h, c, x);
  }

  /** The main result, for the whole exit: when no database write is lost, quantity, exit order and row
      agree again exactly when the reads recount the quantity and the rows of before the restart are
      those of the restored entry. */
  lemma RestartExitIff(b0: Broker, rows: seq<Row>, steps: seq<Step>, c: Contract, x: Option<OrderId>)
    requires b0.NeverShort() && NoOpenBuy(b0, c) && TheExit(b0, c, x) && OneLife(steps) && AllWritten(steps)
    requires var p := Run(State(b0, FRESH, rows), steps).p; !p.reconciled && Finishes(p, ReconFinish)
    ensures var s := Run(State(b0, FRESH, rows), steps); var h := ReadsOf(State(b0, FRESH, rows), steps, c);
      ExitInv(Apply(s, ReconFinish), c) <==> Recounts(s.b, s.p.pending, h, c, x) && RowsRecount(rows, s.b, s.p.pending, h, c, x)
  {
    var s0 := State(b0, FRESH, rows);
    var s, h := Run(s0, steps), ReadsOf(s0, steps, c);
    RunRereads(b0, rows, steps, c, x);
    RunKeepsRows(b0, rows, steps, c, x);
    FinishOnlyFlags(s);
    RereadExitIff(b0, rows, s, h, c, x);
  }
}
