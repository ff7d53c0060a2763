/** One poll of a filled BUY, and the last poll of the SELL that completes an exit. */
module LastPolls {
  import opened Wrappers
  import opened OptionBroker
  import opened OptionProtocol
  import opened NeverShort
  import opened ExitConservation

  // ----- a poll of a filled BUY

  function FinishPoll(s: State): State {
    Apply(Apply(Apply(s, PollCommit), PollRecheck), PollStore(true))
  }

  lemma RowsAfterFill(rows: seq<Row>, c: Contract, positions: map<Contract, Position>, ctx: Ctx, id: OrderId, price: real, qty: nat)
    requires ctx.BuyCtx? && ctx.contract == c
    requires if ctx.rowOpened then c in positions && RowsMatch(rows, c, positions)
             else forall k :: 0 <= k < |rows| ==> !rows[k].OpenFor(c)
    ensures var op := if ctx.rowOpened then UpdateRow(c, price, qty) else OpenRow(id, Row(c, ctx.terms, price, qty, None));
      RowsMatch(ApplyDb(rows, op), c, positions[c := Position(ctx.terms, price, qty)])
  {
    if ctx.rowOpened {
      var rows' := UpdateOpenRows(rows, c, price, qty);
      assert forall k :: 0 <= k < |rows| ==> rows'[k].OpenFor(c) == rows[k].OpenFor(c);
      var k :| 0 <= k < |rows| && rows[k].OpenFor(c);
      assert rows'[k].OpenFor(c);
    } else {
      var rows' := rows + [Row(c, ctx.terms, price, qty, None)];
      assert rows'[|rows|].OpenFor(c);
    }
  }

  /** What a poll of a filled BUY leaves behind: the fill tracked, the order kept only while it is open,
      its row opened and reported the first time and updated silently later. */
  lemma FillPolled(s: State, c: Contract, id: OrderId, ctx: Ctx, o: Order)
    requires s.p.poll.Polling? && s.p.poll.at == Seen(id, ctx, o) && ctx.BuyCtx? && ctx.contract == c
    requires id in s.p.pending && o.filled > 0
    ensures var t := FinishPoll(s);
      var op := if ctx.rowOpened then UpdateRow(c, o.avgPrice, o.filled) else OpenRow(id, Row(c, ctx.terms, o.avgPrice, o.filled, None));
      && t.b == s.b && t.rows == ApplyDb(s.rows, op)
      && t.p == s.p.(positions := s.p.positions[c := Position(ctx.terms, o.avgPrice, o.filled)],
                     pending := if o.Open() then s.p.pending[id := ctx.(rowOpened := true)] else s.p.pending - {id},
                     poll := Polling(s.p.poll.todo, Ready), events := t.p.events, inserts := t.p.inserts)
      && t.p.events == s.p.events + (if ctx.rowOpened then [] else [FillEvent(id, o.avgPrice, o.filled)])
      && t.p.inserts == s.p.inserts + (if ctx.rowOpened then [] else [id])
  {
  }

  // ----- the rows a poll leaves

  ghost predicate SameTrade(row: Row, row': Row) {
    row'.contract == row.contract && row'.terms == row.terms && row'.entryPremium == row.entryPremium && row'.qty == row.qty
  }

  /** Each row that was open for `c` is closed for `reason` at `price`, with its terms, premium and
      quantity as before; every other row is as before. */
  ghost predicate ClosedAs(rows: seq<Row>, rows': seq<Row>, c: Contract, reason: string, price: real) {
    && |rows'| == |rows|
    && forall k :: 0 <= k < |rows| ==>
         if rows[k].contract == c && rows[k].exit.None?
         then SameTrade(rows[k], rows'[k]) && rows'[k].exit == Some((reason, price))
         else rows'[k] == rows[k]
  }

  /** Each row that was open for `c` stays open under the new premium and quantity; every other row is as
      before. */
  ghost predicate RestatedAs(rows: seq<Row>, rows': seq<Row>, c: Contract, premium: real, qty: nat) {
    && |rows'| == |rows|
    && forall k :: 0 <= k < |rows| ==>
         if rows[k].contract == c && rows[k].exit.None?
         then rows'[k] == Row(c, rows[k].terms, premium, qty, None)
         else rows'[k] == rows[k]
  }

  lemma CallCloses(rows: seq<Row>, c: Contract, reason: string, price: real)
    ensures ClosedAs(rows, CloseOpenRows(rows, c, reason, price), c, reason, price)
  {
  }

  lemma CallRestates(rows: seq<Row>, c: Contract, premium: real, qty: nat)
    ensures RestatedAs(rows, UpdateOpenRows(rows, c, premium, qty), c, premium, qty)
  {
  }

  /** The database call the commit of a SELL decides on is the one that is made. */
  lemma SellPollStores(s: State)
    requires s.p.poll.Polling? && s.p.poll.at.Seen? && s.p.poll.at.ctx.SellCtx?
    ensures var at := PollCommitStep(s.p).poll.at;
      && FinishPoll(s).p.positions == PollCommitStep(s.p).positions
      && FinishPoll(s).rows == if at.Storing? && at.op.Some? then ApplyDb(s.rows, at.op.value) else s.rows
  {
    assert Apply(Apply(s, PollCommit), PollRecheck) == Apply(s, PollCommit);
  }

  /** A poll of a finished SELL closes the rows of its contract at the price it filled at when it took all
      that was tracked; otherwise it leaves the remainder under the entry premium. One that is still open,
      has filled nothing, or is no longer listed writes no row. */
  lemma SellPolledRows(s: State, id: OrderId, ctx: Ctx, o: Order)
    requires s.p.poll.Polling? && s.p.poll.at == Seen(id, ctx, o) && ctx.SellCtx?
    ensures var t := FinishPoll(s);
      var c, before := ctx.contract, Tracked(s.p.positions, ctx.contract);
      if o.filled == 0 || o.Open() || id !in s.p.pending then t.rows == s.rows && t.p.positions == s.p.positions
      else if before <= o.filled then ClosedAs(s.rows, t.rows, c, ctx.reason, o.avgPrice) && c !in t.p.positions
      else RestatedAs(s.rows, t.rows, c, s.p.positions[c].entryPremium, before - o.filled)
  {
    SellPollStores(s);
    var at := PollCommitStep(s.p).poll.at;
    if at.Storing? && at.op.Some? {
      var op := at.op.value;
      if op.CloseRow? { CallCloses(s.rows, op.contract, op.reason, op.price); }
      if op.UpdateRow? { CallRestates(s.rows, op.contract, op.entryPremium, op.qty); }
    }
  }

  /** A poll of a filled BUY opens one row at its price the first time, and later restates the open rows. */
  lemma BuyPolledRows(s: State, id: OrderId, ctx: Ctx, o: Order)
    requires s.p.poll.Polling? && s.p.poll.at == Seen(id, ctx, o) && ctx.BuyCtx?
    ensures var t := FinishPoll(s);
      if o.filled == 0 || id !in s.p.pending then t.rows == s.rows
      else if ctx.rowOpened then RestatedAs(s.rows, t.rows, ctx.contract, o.avgPrice, o.filled)
      else t.rows == s.rows + [Row(ctx.contract, ctx.terms, o.avgPrice, o.filled, None)]
  {
    if o.filled > 0 && id in s.p.pending {
      FillPolled(s, ctx.contract, id, ctx, o);
      CallRestates(s.rows, ctx.contract, o.avgPrice, o.filled);
    }
  }

  ghost predicate SameMaps(s: State, t: State) {
    t.b == s.b && t.rows == s.rows && t.p.positions == s.p.positions
  }

  /** A read that fails keeps the entry for the next poll, an order the venue does not know is dropped
      unreported, and otherwise the poll goes on with exactly what the venue answered. */
  lemma ReadAnswers(s: State, ok: bool)
    requires s.p.poll.Polling? && s.p.poll.at.Ready? && s.p.poll.todo != []
    ensures var t := Apply(s, PollRead(ok));
      var id, ctx := s.p.poll.todo[0].0, s.p.poll.todo[0].1;
      && SameMaps(s, t) && t.p.events == s.p.events
      && t.p.pending == (if ok && id !in s.b.orders then s.p.pending - {id} else s.p.pending)
      && t.p.poll == Polling(s.p.poll.todo[1..], if ok && id in s.b.orders then Seen(id, ctx, s.b.orders[id]) else Ready)
  {
  }

  lemma UnfilledCommit(p: Proc, id: OrderId, ctx: Ctx, o: Order)
    requires p.poll.Polling? && p.poll.at == Seen(id, ctx, o) && o.filled == 0
    ensures PollCommitStep(p) == if o.Open() then p.(poll := Polling(p.poll.todo, Ready))
        else p.(pending := p.pending - {id}, poll := Polling(p.poll.todo, Storing(None, Some(TerminalEvent(id, o.status)))))
  {
  }

  lemma ReportOnly(s: State, event: Event)
    requires s.p.poll.Polling? && s.p.poll.at == Storing(None, Some(event))
    ensures Apply(Apply(s, PollRecheck), PollStore(true)) == s.(p := s.p.(poll := Polling(s.p.poll.todo, Ready), events := s.p.events + [event]))
  {
    assert Apply(s, PollRecheck) == s;
  }

  /** A poll of an order that has filled nothing, of either side, drops and reports it exactly when it is
      over, and tracks nothing of it. */
  lemma UnfilledPolled(s: State, id: OrderId, ctx: Ctx, o: Order)
    requires s.p.poll.Polling? && s.p.poll.at == Seen(id, ctx, o) && o.filled == 0
    ensures var t := FinishPoll(s);
      && SameMaps(s, t) && t.p.inserts == s.p.inserts
      && t.p.pending == (if o.Open() then s.p.pending else s.p.pending - {id})
      && t.p.events == s.p.events + (if o.Open() then [] else [TerminalEvent(id, o.status)])
  {
    UnfilledCommit(s.p, id, ctx, o);
    var u := Apply(s, PollCommit);
    if o.Open() {
      assert Apply(u, PollRecheck) == u && Apply(u, PollStore(true)) == u;
    } else {
      ReportOnly(u, TerminalEvent(id, o.status));
    }
  }

  /** A poll leaves everything alone when it finds a SELL filled but still open, or an order filled that is
      no longer listed. */
  lemma LeftAlone(s: State, id: OrderId, ctx: Ctx, o: Order)
    requires s.p.poll.Polling? && s.p.poll.at == Seen(id, ctx, o) && o.filled > 0
    requires (ctx.SellCtx? && o.Open()) || id !in s.p.pending
    ensures FinishPoll(s) == s.(p := s.p.(poll := Polling(s.p.poll.todo, Ready)))
  {
  }

  /** Other threads may run between the commit of a first fill and its row: the row is opened only if the
      contract is still tracked then, and the fill is reported either way. */
  lemma RowOnlyWhileTracked(s: State, id: OrderId, ctx: Ctx, price: real, qty: nat)
    requires s.p.poll.Polling? && s.p.poll.at == Opening(id, ctx, price, qty) && ctx.BuyCtx?
    ensures var t := Apply(Apply(s, PollRecheck), PollStore(true));
      && t.rows == (if ctx.contract in s.p.positions then s.rows + [Row(ctx.contract, ctx.terms, price, qty, None)] else s.rows)
      && t.p.events == s.p.events + [FillEvent(id, price, qty)]
      && t.p.positions == s.p.positions && t.p.pending == s.p.pending
  {
  }

  // ----- the last poll of a SELL

  /** An exit completes: once the poll has read the exit order of a balanced contract as finished, its
      commit and store end the exit with one report, and leave the contract flat exactly when the
      venue holds nothing; otherwise entry and row carry what the venue still holds. */
  lemma LastPollCompletesExit(s: State, c: Contract, id: OrderId, ctx: Ctx, o: Order)
    requires Inv(s) && ExitInv(s, c)
    requires s.p.poll.Polling? && s.p.poll.at == Seen(id, ctx, o) && ctx.SellCtx? && ctx.contract == c
    requires !o.Open() && id in s.p.pending
    ensures var t := FinishPoll(s);
      && ExitInv(t, c) && t.b == s.b && t.p.pending == s.p.pending - {id}
      && (forall i :: !ExitOf(t.p.pending, t.p.sells, c, i))
      && t.p.events == s.p.events + [if o.filled > 0 then FillEvent(id, o.avgPrice, o.filled) else TerminalEvent(id, o.status)]
      && (Flat(t, c) <==> s.b.Net(c) == 0)
      && (s.b.Net(c) != 0 ==> c in t.p.positions && t.p.positions[c].qty == s.b.Net(c))
      && (s.b.Net(c) == 0 && o.filled > 0 ==> ClosedAs(s.rows, t.rows, c, ctx.reason, o.avgPrice))
  {
    SettleSellKeepsExit(s, c, id, ctx, o);
    var committed := Apply(s, PollCommit);
    assert Apply(committed, PollRecheck) == committed;
    PollStoreKeepsExit(committed, c);
    var t := FinishPoll(s);
    assert t == Apply(committed, PollStore(true));
    SellDone(s, id, ctx, o);
    assert Names(s.b, id, s.p.pending[id]) && Names(s.b, id, ctx);
    assert ExitOf(s.p.pending, s.p.sells, c, id);
    forall i ensures !ExitOf(t.p.pending, t.p.sells, c, i) {
      assert ExitOf(t.p.pending, t.p.sells, c, i) ==> ExitOf(s.p.pending, s.p.sells, c, i);
    }
    FlatIffNothingHeld(t, c);
    SellPolledRows(s, id, ctx, o);
  }

  lemma SellDone(s: State, id: OrderId, ctx: Ctx, o: Order)
    requires s.p.poll.Polling? && s.p.poll.at == Seen(id, ctx, o) && ctx.SellCtx? && !o.Open() && id in s.p.pending
    ensures var t := Apply(Apply(s, PollCommit), PollStore(true));
      && t.b == s.b && t.p.pending == s.p.pending - {id} && t.p.sells == s.p.sells
      && t.p.events == s.p.events + [if o.filled > 0 then FillEvent(id, o.avgPrice, o.filled) else TerminalEvent(id, o.status)]
  {
  }
}
