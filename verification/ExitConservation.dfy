/** Exits conserve quantity: once the BUYs of a contract are over and polled, the tracked quantity is
    the venue's position plus what the pending SELL has already filled, and the open database row
    repeats the tracked position, through every later run until the position is gone. */
module ExitConservation {
  import opened Wrappers
  import opened OptionBroker
  import opened OptionProtocol
  import opened NeverShort

  type Pending = map<OrderId, Ctx>
  type Sells = map<Contract, SellCall>
  type Positions = map<Contract, Position>

  /** The SELL of `c` the process accounts for: pending, or sent and about to be registered. */
  ghost predicate ExitOf(pending: Pending, sells: Sells, c: Contract, i: OrderId) {
    || (i in pending && pending[i].SellCtx? && pending[i].contract == c)
    || (c in sells && sells[c].at == SellSent(i))
  }

  ghost predicate OneExit(pending: Pending, sells: Sells, c: Contract) {
    forall i, j :: ExitOf(pending, sells, c, i) && ExitOf(pending, sells, c, j) ==> i == j
  }

  function Tracked(positions: Positions, c: Contract): nat {
    if c in positions then positions[c].qty else 0
  }

  /** The rows as they will be once the poll has made the DB call it is about to make. */
  function RowsToBe(rows: seq<Row>, poll: Poll): seq<Row> {
    if poll.Polling? && poll.at.Storing? && poll.at.op.Some? then ApplyDb(rows, poll.at.op.value) else rows
  }

  /** The open rows of `c`: one that repeats the tracked position, or none when nothing is tracked. */
  ghost predicate RowsMatch(rows: seq<Row>, c: Contract, positions: Positions) {
    && (forall k :: 0 <= k < |rows| && rows[k].OpenFor(c) ==>
          c in positions && rows[k].entryPremium == positions[c].entryPremium && rows[k].qty == positions[c].qty)
    && (forall k, l :: 0 <= k < |rows| && 0 <= l < |rows| && rows[k].OpenFor(c) && rows[l].OpenFor(c) ==> k == l)
    && (c in positions ==> exists k :: 0 <= k < |rows| && rows[k].OpenFor(c))
  }

  ghost predicate NoOpenBuy(b: Broker, c: Contract) {
    forall i :: i in b.orders && b.orders[i].side == Buy && b.orders[i].contract == c ==> !b.orders[i].Open()
  }

  ghost predicate NoBuyCall(buys: map<nat, BuyCall>, c: Contract) {
    forall t :: t in buys && buys[t].contract == c ==> buys[t].at.Admitted?
  }

  ghost predicate NoOpening(poll: Poll, c: Contract) {
    poll.Polling? ==>
      && (poll.at.Opening? ==> poll.at.ctx.contract != c)
      && (poll.at.Storing? && poll.at.op.Some? && poll.at.op.value.OpenRow? ==> poll.at.op.value.row.contract != c)
  }

  /** No BUY of `c` can still add to the position, to the maps or to the rows. */
  ghost predicate BuysOver(b: Broker, p: Proc, c: Contract) {
    && NoOpenBuy(b, c)
    && BuysPending(p.pending, c) == {}
    && NoBuyCall(p.buys, c)
    && NoOpening(p.poll, c)
  }

  /** tracked quantity = venue position + filled quantity of the exit order. */
  ghost predicate Balanced(b: Broker, positions: Positions, pending: Pending, sells: Sells, c: Contract) {
    && (forall i :: ExitOf(pending, sells, c, i) ==> i in b.orders && Tracked(positions, c) == b.Net(c) + b.orders[i].filled)
    && ((forall i :: !ExitOf(pending, sells, c, i)) ==> Tracked(positions, c) == b.Net(c))
    && (c in positions ==> positions[c].qty > 0)
  }

  ghost predicate ExitInv(s: State, c: Contract) {
    && s.p.reconciled
    && OneExit(s.p.pending, s.p.sells, c)
    && BuysOver(s.b, s.p, c)
    && Balanced(s.b, s.p.positions, s.p.pending, s.p.sells, c)
    && RowsMatch(RowsToBe(s.rows, s.p.poll), c, s.p.positions)
  }

  /** Fully out: nothing at the venue, nothing tracked, no open row. */
  ghost predicate Flat(s: State, c: Contract) {
    && s.b.Net(c) == 0
    && c !in s.p.positions
    && (forall k :: 0 <= k < |RowsToBe(s.rows, s.p.poll)| ==> !RowsToBe(s.rows, s.p.poll)[k].OpenFor(c))
  }

  /** With no exit order outstanding the position is dropped and its row closed exactly when the
      venue holds nothing; otherwise the entry and the row carry the exact remainder. */
  lemma FlatIffNothingHeld(s: State, c: Contract)
    requires ExitInv(s, c)
    requires forall i :: !ExitOf(s.p.pending, s.p.sells, c, i)
    ensures Flat(s, c) <==> s.b.Net(c) == 0
    ensures s.b.Net(c) != 0 ==>
      && c in s.p.positions && s.p.positions[c].qty == s.b.Net(c)
      && var rows := RowsToBe(s.rows, s.p.poll);
         exists k :: 0 <= k < |rows| && rows[k].OpenFor(c) && rows[k].qty == s.b.Net(c)
           && rows[k].entryPremium == s.p.positions[c].entryPremium
  {
    if c in s.p.positions {
      var rows := RowsToBe(s.rows, s.p.poll);
      var k :| 0 <= k < |rows| && rows[k].OpenFor(c);
    }
  }

  // ----- database calls

  lemma DbOfOther(rows: seq<Row>, op: DbOp, c: Contract, positions: Positions)
    requires RowsMatch(rows, c, positions)
    requires op.OpenRow? ==> op.row.contract != c
    requires !op.OpenRow? ==> op.contract != c
    ensures RowsMatch(ApplyDb(rows, op), c, positions)
  {
    var rows' := ApplyDb(rows, op);
    assert forall k :: 0 <= k < |rows| ==> rows'[k].OpenFor(c) == rows[k].OpenFor(c) && (rows[k].OpenFor(c) ==> rows'[k] == rows[k]);
    if c in positions {
      var k :| 0 <= k < |rows| && rows[k].OpenFor(c);
      assert rows'[k].OpenFor(c);
    }
  }

  lemma DbUpdate(rows: seq<Row>, c: Contract, positions: Positions, qty: nat)
    requires RowsMatch(rows, c, positions) && c in positions
    ensures RowsMatch(UpdateOpenRows(rows, c, positions[c].entryPremium, qty), c, positions[c := positions[c].(qty := qty)])
  {
    var rows' := UpdateOpenRows(rows, c, positions[c].entryPremium, qty);
    assert forall k :: 0 <= k < |rows| ==> rows'[k].OpenFor(c) == rows[k].OpenFor(c);
    var k :| 0 <= k < |rows| && rows[k].OpenFor(c);
    assert rows'[k].OpenFor(c);
  }

  lemma DbClose(rows: seq<Row>, c: Contract, positions: Positions, reason: string, price: real)
    ensures RowsMatch(CloseOpenRows(rows, c, reason, price), c, positions - {c})
  {
  }

  // ----- the steps

  lemma AdvanceKeepsExit(s: State, c: Contract, id: OrderId, n: nat, avgPrice: real, status: OrderStatus)
    requires Inv(s) && ExitInv(s, c)
    ensures ExitInv(Apply(s, BrokerAdvance(id, n, avgPrice, status)), c)
  {
    var b' := s.b.Advance(id, n, avgPrice, status);
    if id in s.b.orders && s.b.orders[id].Open() && s.b.orders[id].filled + n <= s.b.orders[id].qty {
      if s.b.orders[id].contract == c {
        assert s.b.OpenSell(id);
        assert Watched(id, c, s.p.pending, s.p.sells, s.p.recon);
        assert id in s.p.pending ==> Names(s.b, id, s.p.pending[id]);
        assert ExitOf(s.p.pending, s.p.sells, c, id);
        assert b'.Net(c) == s.b.Net(c) - n;
      } else {
        assert b'.Net(c) == s.b.Net(c);
        forall i | ExitOf(s.p.pending, s.p.sells, c, i) ensures i in b'.orders && b'.orders[i] == s.b.orders[i] {
          ExitNamed(s, c, i);
        }
      }
    }
  }

  lemma ExitNamed(s: State, c: Contract, i: OrderId)
    requires Inv(s) && ExitOf(s.p.pending, s.p.sells, c, i)
    ensures i in s.b.orders && s.b.orders[i].side == Sell && s.b.orders[i].contract == c
  {
    if i in s.p.pending && s.p.pending[i].SellCtx? && s.p.pending[i].contract == c {
      assert Names(s.b, i, s.p.pending[i]);
    } else {
      assert SellCallOk(s.b, s.p.pending, c, s.p.sells[c]);
    }
  }

  /** Nothing of `c` moves: same venue position and orders, same entry, same pending entries and calls. */
  ghost predicate Untouched(s: State, t: State, c: Contract) {
    && t.p.reconciled == s.p.reconciled
    && t.b.Net(c) == s.b.Net(c)
    && (forall i :: i in s.b.orders ==> i in t.b.orders && t.b.orders[i].filled == s.b.orders[i].filled)
    && NoOpenBuy(t.b, c)
    && (forall i :: ExitOf(t.p.pending, t.p.sells, c, i) <==> ExitOf(s.p.pending, s.p.sells, c, i))
    && BuysPending(t.p.pending, c) == {}
    && NoBuyCall(t.p.buys, c)
    && NoOpening(t.p.poll, c)
    && (c in t.p.positions <==> c in s.p.positions)
    && (c in t.p.positions ==> t.p.positions[c] == s.p.positions[c])
    && RowsMatch(RowsToBe(t.rows, t.p.poll), c, s.p.positions)
  }

  lemma UntouchedKeepsExit(s: State, t: State, c: Contract)
    requires ExitInv(s, c) && Untouched(s, t, c)
    ensures ExitInv(t, c)
  {
    if forall i :: !ExitOf(t.p.pending, t.p.sells, c, i) {
      assert forall i :: !ExitOf(s.p.pending, s.p.sells, c, i);
    }
    assert RowsMatch(RowsToBe(t.rows, t.p.poll), c, t.p.positions);
  }

  /** The poll learns that the exit order of `c` is over: the entry leaves the pending map and the
      tracked quantity drops by what was sold. */
  lemma ExitSettles(s: State, c: Contract, id: OrderId, positions': Positions)
    requires Inv(s) && ExitInv(s, c)
    requires id in s.p.pending && s.p.pending[id].SellCtx? && s.p.pending[id].contract == c
    requires Tracked(positions', c) == Tracked(s.p.positions, c) - s.b.orders[id].filled
    requires c in positions' ==> positions'[c].qty > 0
    ensures OneExit(s.p.pending - {id}, s.p.sells, c)
    ensures Balanced(s.b, positions', s.p.pending - {id}, s.p.sells, c)
  {
    assert ExitOf(s.p.pending, s.p.sells, c, id);
    assert c !in s.p.sells;
    forall i ensures !ExitOf(s.p.pending - {id}, s.p.sells, c, i) {
      assert ExitOf(s.p.pending - {id}, s.p.sells, c, i) ==> ExitOf(s.p.pending, s.p.sells, c, i);
    }
  }

  lemma SettleSellKeepsExit(s: State, c: Contract, id: OrderId, ctx: Ctx, o: Order)
    requires Inv(s) && ExitInv(s, c)
    requires s.p.poll.Polling? && s.p.poll.at == Seen(id, ctx, o) && ctx.SellCtx? && ctx.contract == c
    requires !o.Open() && id in s.p.pending
    ensures ExitInv(s.(p := SettleSell(s.p, id, ctx, o)), c)
  {
    var p' := SettleSell(s.p, id, ctx, o);
    assert Names(s.b, id, ctx) && Earlier(s.b, id, o) && Names(s.b, id, s.p.pending[id]);
    assert ExitOf(s.p.pending, s.p.sells, c, id);
    assert Tracked(s.p.positions, c) == s.b.Net(c) + o.filled;
    assert s.b.Net(c) >= 0;
    ExitSettles(s, c, id, p'.positions);
    assert BuysPending(p'.pending, c) <= BuysPending(s.p.pending, c);
    if o.filled > 0 {
      if c in s.p.positions && s.p.positions[c].qty > o.filled {
        DbUpdate(s.rows, c, s.p.positions, s.p.positions[c].qty - o.filled);
      } else {
        DbClose(s.rows, c, s.p.positions, ctx.reason, o.avgPrice);
      }
    }
  }

  /** Settling leaves everything about `c` alone, bar possibly the entry `id`. */
  ghost predicate SettlesElsewhere(p: Proc, p': Proc, c: Contract, id: OrderId) {
    && p' == p.(positions := p'.positions, pending := p'.pending, poll := p'.poll)
    && (c in p'.positions <==> c in p.positions)
    && (c in p'.positions ==> p'.positions[c] == p.positions[c])
    && (forall i :: i != id ==> (i in p'.pending <==> i in p.pending) && (i in p'.pending ==> p'.pending[i] == p.pending[i]))
    && (id in p'.pending && p'.pending[id].contract == c ==> id in p.pending && p.pending[id] == p'.pending[id])
    && (id in p.pending && p.pending[id].contract == c ==> id in p'.pending && p'.pending[id] == p.pending[id])
    && NoOpening(p'.poll, c)
    && (p'.poll.Polling? && p'.poll.at.Storing? && p'.poll.at.op.Some? && !p'.poll.at.op.value.OpenRow? ==> p'.poll.at.op.value.contract != c)
  }

  lemma SettleSellFrame(p: Proc, c: Contract, id: OrderId, ctx: Ctx, o: Order)
    requires p.poll.Polling? && p.poll.at == Seen(id, ctx, o) && ctx.SellCtx?
    requires id in p.pending ==> p.pending[id].contract == ctx.contract
    requires ctx.contract == c ==> id !in p.pending || o.Open()
    ensures SettlesElsewhere(p, SettleSell(p, id, ctx, o), c, id)
  {
  }

  lemma SettleBuyFrame(p: Proc, c: Contract, id: OrderId, ctx: Ctx, o: Order)
    requires p.poll.Polling? && p.poll.at == Seen(id, ctx, o) && ctx.BuyCtx?
    requires id in p.pending ==> p.pending[id].contract == ctx.contract
    requires ctx.contract == c ==> id !in p.pending
    ensures SettlesElsewhere(p, SettleBuy(p, id, ctx, o), c, id)
  {
  }

  lemma SettleFrame(p: Proc, c: Contract, id: OrderId, ctx: Ctx, o: Order)
    requires p.poll.Polling? && p.poll.at == Seen(id, ctx, o)
    requires id in p.pending ==> p.pending[id].contract == ctx.contract
    requires ctx.contract == c ==> id !in p.pending || (ctx.SellCtx? && o.Open())
    ensures SettlesElsewhere(p, PollCommitStep(p), c, id)
  {
    if ctx.SellCtx? { SettleSellFrame(p, c, id, ctx, o); } else { SettleBuyFrame(p, c, id, ctx, o); }
  }

  lemma SettleOtherKeepsExit(s: State, c: Contract, p': Proc, id: OrderId)
    requires ExitInv(s, c) && s.p.poll.Polling? && s.p.poll.at.Seen?
    requires SettlesElsewhere(s.p, p', c, id)
    ensures ExitInv(s.(p := p'), c)
  {
    if p'.poll.Polling? && p'.poll.at.Storing? && p'.poll.at.op.Some? {
      DbOfOther(s.rows, p'.poll.at.op.value, c, s.p.positions);
    }
    assert BuysPending(p'.pending, c) <= BuysPending(s.p.pending, c);
    UntouchedKeepsExit(s, s.(p := p'), c);
  }

  lemma PollCommitKeepsExit(s: State, c: Contract)
    requires Inv(s) && ExitInv(s, c)
    ensures ExitInv(Apply(s, PollCommit), c)
  {
    if s.p.poll.Polling? && s.p.poll.at.Seen? {
      var Seen(id, ctx, o) := s.p.poll.at;
      assert Names(s.b, id, ctx);
      assert id in s.p.pending ==> Names(s.b, id, s.p.pending[id]);
      assert id in s.p.pending && ctx.BuyCtx? && ctx.contract == c ==> id in BuysPending(s.p.pending, c);
      if ctx.contract == c && id in s.p.pending && !o.Open() {
        SettleSellKeepsExit(s, c, id, ctx, o);
      } else {
        SettleFrame(s.p, c, id, ctx, o);
        SettleOtherKeepsExit(s, c, PollCommitStep(s.p), id);
      }
    }
  }

  lemma PollMovesOn(s: State, c: Contract, poll': Poll)
    requires ExitInv(s, c)
    requires NoOpening(poll', c) && RowsMatch(RowsToBe(s.rows, poll'), c, s.p.positions)
    ensures ExitInv(s.(p := s.p.(poll := poll')), c)
  {
  }

  lemma PollReadKeepsExit(s: State, c: Contract, ok: bool)
    requires Inv(s) && ExitInv(s, c)
    ensures ExitInv(Apply(s, PollRead(ok)), c)
  {
    if s.p.poll.Polling? && s.p.poll.at.Ready? {
      assert s.p.poll.todo != [] ==> Names(s.b, s.p.poll.todo[0].0, s.p.poll.todo[0].1);
      PollMovesOn(s, c, PollReadStep(s.b, s.p, ok).poll);
    }
  }

  lemma PollRecheckKeepsExit(s: State, c: Contract)
    requires ExitInv(s, c)
    ensures ExitInv(Apply(s, PollRecheck), c)
  {
    var poll' := PollRecheckStep(s.p).poll;
    if s.p.poll.Polling? && s.p.poll.at.Opening? && s.p.poll.at.ctx.BuyCtx? {
      if poll'.at.op.Some? {
        DbOfOther(s.rows, poll'.at.op.value, c, s.p.positions);
      }
      PollMovesOn(s, c, poll');
    }
  }

  lemma PollStoreKeepsExit(s: State, c: Contract)
    requires ExitInv(s, c)
    ensures ExitInv(Apply(s, PollStore(true)), c)
  {
    if s.p.poll.Polling? && s.p.poll.at.Storing? {
      UntouchedKeepsExit(s, PollStoreStep(s, true), c);
    }
  }

  lemma SnapshotMovesOn(p: Proc, ids: seq<OrderId>, c: Contract, rows: seq<Row>)
    requires p.poll.Idle?
    ensures var q := PollBeginStep(p, ids);
      q == p.(poll := q.poll) && NoOpening(q.poll, c) && RowsToBe(rows, q.poll) == RowsToBe(rows, p.poll)
  {
  }

  lemma PollBeginKeepsExit(s: State, c: Contract, ids: seq<OrderId>)
    requires ExitInv(s, c)
    ensures ExitInv(Apply(s, PollBegin(ids)), c)
  {
    if s.p.poll.Idle? {
      SnapshotMovesOn(s.p, ids, c, s.rows);
      PollMovesOn(s, c, PollBeginStep(s.p, ids).poll);
    }
  }

  /** A BUY of `c` gets past the in-memory duplicate check. */
  ghost predicate Reenters(p: Proc, c: Contract, st: Step) {
    && st.BuyCheckMemory? && st.tid in p.buys && p.buys[st.tid].contract == c && p.buys[st.tid].at.Admitted?
    && BuysPending(p.pending, c) == {} && c !in p.positions
  }

  lemma BuysMoveOn(s: State, c: Contract, buys': map<nat, BuyCall>)
    requires ExitInv(s, c) && NoBuyCall(buys', c)
    ensures ExitInv(s.(p := s.p.(buys := buys')), c)
  {
  }

  /** What the checks of one call do to the calls. */
  lemma BuyChecksAdvance(b: Broker, p: Proc, c: Contract, tid: nat, ok: bool)
    requires NoBuyCall(p.buys, c)
    ensures var q := BuyCheckBrokerStep(b, p, tid, ok); q == p.(buys := q.buys) && NoBuyCall(q.buys, c)
    ensures var q := BuyCheckMemoryStep(p, tid);
      q == p.(buys := q.buys) && (Reenters(p, c, BuyCheckMemory(tid)) || NoBuyCall(q.buys, c))
  {
  }

  lemma BuyAdmitKeepsExit(s: State, c: Contract, tid: nat, d: Contract, terms: Terms, qty: nat)
    requires ExitInv(s, c)
    ensures ExitInv(Apply(s, BuyAdmit(tid, d, terms, qty)), c)
  {
    BuysMoveOn(s, c, BuyAdmitStep(s.p, tid, d, terms, qty).buys);
  }

  lemma BuyCheckMemoryKeepsExit(s: State, c: Contract, tid: nat)
    requires ExitInv(s, c) && !Reenters(s.p, c, BuyCheckMemory(tid))
    ensures ExitInv(Apply(s, BuyCheckMemory(tid)), c)
  {
    BuyChecksAdvance(s.b, s.p, c, tid, true);
    BuysMoveOn(s, c, BuyCheckMemoryStep(s.p, tid).buys);
  }

  lemma BuyCheckBrokerKeepsExit(s: State, c: Contract, tid: nat, ok: bool)
    requires ExitInv(s, c)
    ensures ExitInv(Apply(s, BuyCheckBroker(tid, ok)), c)
  {
    BuyChecksAdvance(s.b, s.p, c, tid, ok);
    BuysMoveOn(s, c, BuyCheckBrokerStep(s.b, s.p, tid, ok).buys);
  }

  lemma BuyGiveUpKeepsExit(s: State, c: Contract, tid: nat)
    requires ExitInv(s, c)
    ensures ExitInv(Apply(s, BuyGiveUp(tid)), c)
  {
    BuysMoveOn(s, c, BuyGiveUpStep(s.p, tid).buys);
  }

  lemma BuySubmitKeepsExit(s: State, c: Contract, tid: nat, id: OrderId)
    requires ExitInv(s, c)
    ensures ExitInv(Apply(s, BuySubmit(tid, id)), c)
  {
    if tid in s.p.buys && s.p.buys[tid].at.Cleared? && id !in s.b.orders {
      UntouchedKeepsExit(s, BuySubmitStep(s, tid, id), c);
    }
  }

  lemma BuyRegisterKeepsExit(s: State, c: Contract, tid: nat)
    requires Inv(s) && ExitInv(s, c)
    ensures ExitInv(Apply(s, BuyRegister(tid)), c)
  {
    var p' := BuyRegisterStep(s.p, tid);
    if tid in s.p.buys && s.p.buys[tid].at.Sent? {
      assert BuyCallOk(s.b, s.p.buys[tid]);
      assert s.p.buys[tid].contract != c;
      var id := s.p.buys[tid].at.id;
      assert id in s.p.pending ==> Names(s.b, id, s.p.pending[id]);
      UntouchedKeepsExit(s, s.(p := p'), c);
    }
  }

  lemma SellsMoveOn(s: State, c: Contract, b': Broker, sells': Sells)
    requires ExitInv(s, c) && NoOpenBuy(b', c)
    requires b'.Net(c) == s.b.Net(c)
    requires forall i :: i in s.b.orders ==> i in b'.orders && b'.orders[i].filled == s.b.orders[i].filled
    requires c in sells' && sells'[c].at.SellSent? ==> c in s.p.sells && s.p.sells[c].at == sells'[c].at
    requires c in s.p.sells && s.p.sells[c].at.SellSent? ==> c in sells' && s.p.sells[c].at == sells'[c].at
    ensures ExitInv(State(b', s.p.(sells := sells'), s.rows), c)
  {
    UntouchedKeepsExit(s, State(b', s.p.(sells := sells'), s.rows), c);
  }

  lemma CancelFrame(b: Broker, id: OrderId, c: Contract)
    requires b.CanCancel(id) && NoOpenBuy(b, c)
    ensures NoOpenBuy(b.Cancel(id), c) && b.Cancel(id).Net(c) == b.Net(c)
    ensures forall i :: i in b.orders ==> i in b.Cancel(id).orders && b.Cancel(id).orders[i].filled == b.orders[i].filled
  {
  }

  lemma SellCancelKeepsExit(s: State, c: Contract, d: Contract, id: OrderId, ok: bool)
    requires Inv(s) && ExitInv(s, c)
    ensures ExitInv(Apply(s, SellCancel(d, id, ok)), c)
  {
    if d in s.p.sells && s.p.sells[d].at.Cancelling? && id in s.p.sells[d].at.todo {
      if ok && s.b.CanCancel(id) {
        CancelFrame(s.b, id, c);
        SellsMoveOn(s, c, s.b.Cancel(id), SellCancelStep(s, d, id, ok).p.sells);
      } else {
        SellsMoveOn(s, c, s.b, SellCancelStep(s, d, id, ok).p.sells);
      }
    }
  }

  lemma SellBeginAdvances(p: Proc, c: Contract, d: Contract, reason: string)
    ensures var q := SellBeginStep(p, d, reason);
      && q == p.(sells := q.sells)
      && (c in q.sells && q.sells[c].at.SellSent? <==> c in p.sells && p.sells[c].at.SellSent?)
      && (c in p.sells ==> c in q.sells && q.sells[c] == p.sells[c])
  {
  }

  lemma SellBeginKeepsExit(s: State, c: Contract, d: Contract, reason: string)
    requires Inv(s) && ExitInv(s, c)
    ensures ExitInv(Apply(s, SellBegin(d, reason)), c)
  {
    SellBeginAdvances(s.p, c, d, reason);
    SellsMoveOn(s, c, s.b, SellBeginStep(s.p, d, reason).sells);
  }

  lemma SellSizeKeepsExit(s: State, c: Contract, d: Contract, ok: bool)
    requires Inv(s) && ExitInv(s, c)
    ensures ExitInv(Apply(s, SellSize(d, ok)), c)
  {
    if d in s.p.sells && s.p.sells[d].at == Cancelling({}) {
      if ok && s.b.Net(d) <= 0 {
        SellDropKeepsExit(s, c, d);
      } else {
        SellsMoveOn(s, c, s.b, SellSizeStep(s.b, s.p, d, ok).sells);
      }
    }
  }

  /** The no-position exit of sell_option drops nothing that still counts. */
  lemma SellDropKeepsExit(s: State, c: Contract, d: Contract)
    requires Inv(s) && ExitInv(s, c)
    requires d in s.p.sells && s.p.sells[d].at == Cancelling({}) && s.b.Net(d) <= 0
    ensures ExitInv(s.(p := SellSizeStep(s.b, s.p, d, true)), c)
  {
    assert SellCallOk(s.b, s.p.pending, d, s.p.sells[d]);
    var p' := SellSizeStep(s.b, s.p, d, true);
    if d == c {
      assert s.b.Net(c) >= 0;
      assert forall i :: !ExitOf(s.p.pending, s.p.sells, c, i);
      assert c !in s.p.positions;
    }
    assert BuysPending(p'.pending, c) <= BuysPending(s.p.pending, c);
    UntouchedKeepsExit(s, s.(p := p'), c);
  }

  lemma SubmitFrame(b: Broker, id: OrderId, d: Contract, qty: nat, c: Contract)
    requires id !in b.orders && NoOpenBuy(b, c)
    ensures var b' := b.Submit(id, d, Sell, qty);
      && NoOpenBuy(b', c) && b'.Net(c) == b.Net(c) && id in b'.orders && b'.orders[id].filled == 0
      && forall i :: i in b.orders ==> i in b'.orders && b'.orders[i].filled == b.orders[i].filled
  {
  }

  lemma OtherSaleKeepsExit(s: State, c: Contract, d: Contract, id: OrderId)
    requires ExitInv(s, c) && d != c
    requires d in s.p.sells && s.p.sells[d].at.Sized? && id !in s.b.orders
    ensures ExitInv(Apply(s, SellSubmit(d, id, true)), c)
  {
    SubmitFrame(s.b, id, d, s.p.sells[d].at.qty, c);
    var t := SellSubmitStep(s, d, id, true);
    SellsMoveOn(s, c, t.b, t.p.sells);
  }

  /** The new SELL has sold nothing yet, so it accounts for nothing. */
  lemma SaleKeepsExit(s: State, c: Contract, id: OrderId)
    requires Inv(s) && ExitInv(s, c)
    requires c in s.p.sells && s.p.sells[c].at.Sized? && id !in s.b.orders
    ensures ExitInv(Apply(s, SellSubmit(c, id, true)), c)
  {
    var t := SellSubmitStep(s, c, id, true);
    assert SellCallOk(s.b, s.p.pending, c, s.p.sells[c]);
    assert forall i :: !ExitOf(s.p.pending, s.p.sells, c, i);
    SubmitFrame(s.b, id, c, s.p.sells[c].at.qty, c);
    assert forall i :: ExitOf(t.p.pending, t.p.sells, c, i) <==> i == id;
  }

  lemma SellRefusedKeepsExit(s: State, c: Contract, d: Contract, id: OrderId)
    requires ExitInv(s, c) && d in s.p.sells && s.p.sells[d].at.Sized?
    ensures ExitInv(Apply(s, SellSubmit(d, id, false)), c)
  {
    SellsMoveOn(s, c, s.b, s.p.sells - {d});
  }

  lemma SellSubmitKeepsExit(s: State, c: Contract, d: Contract, id: OrderId, ok: bool)
    requires Inv(s) && ExitInv(s, c)
    ensures ExitInv(Apply(s, SellSubmit(d, id, ok)), c)
  {
    if d in s.p.sells && s.p.sells[d].at.Sized? {
      if !ok {
        SellRefusedKeepsExit(s, c, d, id);
      } else if id !in s.b.orders {
        if d == c { SaleKeepsExit(s, c, id); } else { OtherSaleKeepsExit(s, c, d, id); }
      }
    }
  }

  /** Registering the SELL moves the exit order from its call to the pending map and drops BUYs only. */
  lemma RegisterMovesExit(p: Proc, c: Contract, d: Contract)
    requires d in p.sells && p.sells[d].at.SellSent? && BuysPending(p.pending, c) == {}
    requires forall i :: i in p.pending && i in p.sells[d].canceled ==> p.pending[i].BuyCtx?
    requires p.sells[d].at.id in p.pending ==> p.pending[p.sells[d].at.id].SellCtx? && p.pending[p.sells[d].at.id].contract == d
    requires p.sells[d].at.id !in p.sells[d].canceled
    ensures var q := SellRegisterStep(p, d);
      && q == p.(pending := q.pending, sells := q.sells)
      && BuysPending(q.pending, c) == {}
      && forall i :: ExitOf(q.pending, q.sells, c, i) <==> ExitOf(p.pending, p.sells, c, i)
  {
  }

  lemma SellRegisterKeepsExit(s: State, c: Contract, d: Contract)
    requires Inv(s) && ExitInv(s, c)
    ensures ExitInv(Apply(s, SellRegister(d)), c)
  {
    if d in s.p.sells && s.p.sells[d].at.SellSent? {
      var p' := SellRegisterStep(s.p, d);
      assert SellCallOk(s.b, s.p.pending, d, s.p.sells[d]);
      forall i | i in s.p.pending && i in s.p.sells[d].canceled ensures s.p.pending[i].BuyCtx? {
        assert Names(s.b, i, s.p.pending[i]);
      }
      var id := s.p.sells[d].at.id;
      assert id in s.p.pending ==> Names(s.b, id, s.p.pending[id]);
      RegisterMovesExit(s.p, c, d);
      UntouchedKeepsExit(s, s.(p := p'), c);
    }
  }

  // ----- every run

  /** What a run must not do for the balance of `c` to hold to its end: die, lose a DB write, or let
      a new BUY of `c` in. */
  ghost predicate Disturbs(s: State, c: Contract, st: Step) {
    st.Crash? || st == PollStore(false) || Reenters(s.p, c, st)
  }

  lemma SellerKeepsExit(s: State, c: Contract, st: Step)
    requires Inv(s) && ExitInv(s, c)
    requires IsSellStep(st)
    ensures ExitInv(Apply(s, st), c)
  {
    match st
    case SellBegin(d, reason) => SellBeginKeepsExit(s, c, d, reason);
    case SellCancel(d, id, ok) => SellCancelKeepsExit(s, c, d, id, ok);
    case SellSize(d, ok) => SellSizeKeepsExit(s, c, d, ok);
    case SellSubmit(d, id, ok) => SellSubmitKeepsExit(s, c, d, id, ok);
    case SellRegister(d) => SellRegisterKeepsExit(s, c, d);
  }

  lemma BuyerKeepsExit(s: State, c: Contract, st: Step)
    requires Inv(s) && ExitInv(s, c) && !Reenters(s.p, c, st)
    requires IsBuyStep(st)
    ensures ExitInv(Apply(s, st), c)
  {
    match st
    case BuyAdmit(tid, d, terms, qty) => BuyAdmitKeepsExit(s, c, tid, d, terms, qty);
    case BuyCheckMemory(tid) => BuyCheckMemoryKeepsExit(s, c, tid);
    case BuyCheckBroker(tid, ok) => BuyCheckBrokerKeepsExit(s, c, tid, ok);
    case BuyGiveUp(tid) => BuyGiveUpKeepsExit(s, c, tid);
    case BuySubmit(tid, id) => BuySubmitKeepsExit(s, c, tid, id);
    case BuyRegister(tid) => BuyRegisterKeepsExit(s, c, tid);
  }

  lemma PollKeepsExit(s: State, c: Contract, st: Step)
    requires Inv(s) && ExitInv(s, c)
    requires IsPollStep(st) && st != PollStore(false)
    ensures ExitInv(Apply(s, st), c)
  {
    match st
    case PollBegin(ids) => PollBeginKeepsExit(s, c, ids);
    case PollRead(ok) => PollReadKeepsExit(s, c, ok);
    case PollCommit => PollCommitKeepsExit(s, c);
    case PollRecheck => PollRecheckKeepsExit(s, c);
    case PollStore(_) => PollStoreKeepsExit(s, c);
  }

  /** Once reconciled, the reconcile loop does nothing. */
  lemma ReconcilerKeepsExit(s: State, c: Contract, st: Step)
    requires Inv(s) && ExitInv(s, c)
    requires IsReconStep(st)
    ensures ExitInv(Apply(s, st), c)
  {
    assert Apply(s, st) == s;
  }

  lemma StepKeepsExit(s: State, c: Contract, st: Step)
    requires Inv(s) && ExitInv(s, c) && !Disturbs(s, c, st)
    ensures ExitInv(Apply(s, st), c)
  {
    if IsPollStep(st) {
      PollKeepsExit(s, c, st);
    } else if IsSellStep(st) {
      SellerKeepsExit(s, c, st);
    } else if IsBuyStep(st) {
      BuyerKeepsExit(s, c, st);
    } else if IsReconStep(st) {
      ReconcilerKeepsExit(s, c, st);
    } else {
      AdvanceKeepsExit(s, c, st.id, st.n, st.avgPrice, st.status);
    }
  }

  /** The duplicate check lets a new BUY of `c` in only after a complete exit. */
  lemma ReentryOnlyWhenFlat(s: State, c: Contract, st: Step)
    requires Inv(s) && ExitInv(s, c) && Reenters(s.p, c, st)
    ensures Flat(s, c)
  {
    if i :| ExitOf(s.p.pending, s.p.sells, c, i) {
      assert Tracked(s.p.positions, c) == s.b.Net(c) + s.b.orders[i].filled;
    }
    assert s.b.Net(c) >= 0;
  }

  ghost predicate LivesOn(steps: seq<Step>) {
    forall k :: 0 <= k < |steps| ==> !steps[k].Crash? && steps[k] != PollStore(false)
  }

  /** The run passes, balanced up to there, through a flat state in which its step `k` lets a new
      BUY of `c` in. */
  ghost predicate ReopensAt(s: State, c: Contract, steps: seq<Step>, k: nat) {
    k < |steps| && var t := Run(s, steps[..k]); ExitInv(t, c) && Flat(t, c) && Reenters(t.p, c, steps[k])
  }

  lemma ReopensLater(s: State, c: Contract, steps: seq<Step>, k: nat)
    requires steps != [] && ReopensAt(Apply(s, steps[0]), c, steps[1..], k)
    ensures ReopensAt(s, c, steps, k + 1)
  {
    assert steps[..k + 1][1..] == steps[1..][..k];
    assert Run(s, steps[..k + 1]) == Run(Apply(s, steps[0]), steps[1..][..k]);
  }

  /** The main result. From a balanced contract every run without a crash or a lost DB write either
      ends balanced, or went through a complete exit followed by a new BUY of the contract. */
  lemma {:induction false} ExitConserved(s: State, c: Contract, steps: seq<Step>)
    requires Inv(s) && ExitInv(s, c) && LivesOn(steps)
    ensures ExitInv(Run(s, steps), c) || exists k :: ReopensAt(s, c, steps, k)
    decreases |steps|
  {
    if steps != [] {
      var st := steps[0];
      if Reenters(s.p, c, st) {
        ReentryOnlyWhenFlat(s, c, st);
        assert Run(s, steps[..0]) == s;
        assert ReopensAt(s, c, steps, 0);
      } else {
        StepKeeps(s, st);
        StepKeepsExit(s, c, st);
        ExitConserved(Apply(s, st), c, steps[1..]);
        if k :| ReopensAt(Apply(s, st), c, steps[1..], k) {
          ReopensLater(s, c, steps, k);
        }
      }
    }
  }
}
