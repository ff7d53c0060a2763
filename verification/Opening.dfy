/** The opening half of a trade: from a flat contract one BUY may fill in any number of parts, be polled,
    cancelled or given up; when it is over, the contract is balanced. */
module Opening {
  import opened Wrappers
  import opened OptionBroker
  import opened OptionProtocol
  import opened NeverShort
  import opened ExactlyOnce
  import opened ExitConservation
  import opened ThreadFrames
  import opened LastPolls

  type Buys = map<nat, BuyCall>

  function FilledOf(b: Broker, who: Option<OrderId>): nat {
    if who.Some? && who.value in b.orders then b.orders[who.value].filled else 0
  }

  /** `who` is the BUY of `c`, once it is submitted: it alone moves the position, and no other order of
      `c` is open. */
  ghost predicate OnlyOrder(b: Broker, c: Contract, who: Option<OrderId>) {
    && (who.Some? ==> who.value in b.orders && b.orders[who.value].side == Buy && b.orders[who.value].contract == c)
    && b.Net(c) == FilledOf(b, who)
    && (forall i :: i in b.orders && b.orders[i].contract == c && b.orders[i].Open() ==> who == Some(i))
  }

  ghost predicate OnlyPending(pending: Pending, c: Contract, who: Option<OrderId>) {
    forall i :: i in pending && pending[i].contract == c ==> who == Some(i) && pending[i].BuyCtx?
  }

  ghost predicate Past(buys: Buys, c: Contract, t: nat) {
    t in buys && buys[t].contract == c && !buys[t].at.Admitted?
  }

  /** Of the calls for `c` only one is past the duplicate check: it has submitted `who`, or nothing yet. */
  ghost predicate OnlyCall(buys: Buys, c: Contract, who: Option<OrderId>) {
    && (forall t :: Past(buys, c, t) ==> if who.Some? then buys[t].at == Sent(who.value) else !buys[t].at.Sent?)
    && (forall t, u :: Past(buys, c, t) && Past(buys, c, u) ==> t == u)
  }

  ghost predicate SentBy(buys: Buys, id: OrderId) {
    exists t :: t in buys && buys[t].at == Sent(id)
  }

  /** The entry of `c` is what the polls have seen of the BUY so far, and all of it once it is over. */
  ghost predicate SeenSoFar(b: Broker, positions: Positions, pending: Pending, buys: Buys, c: Contract, who: Option<OrderId>) {
    && (c in positions ==> who.Some? && 0 < positions[c].qty <= FilledOf(b, who))
    && (who.Some? && who.value in b.orders ==>
          if who.value in pending then pending[who.value].BuyCtx? && (pending[who.value].rowOpened <==> c in positions)
          else if SentBy(buys, who.value) then c !in positions
          else !b.orders[who.value].Open() && Tracked(positions, c) == b.orders[who.value].filled)
  }

  /** The poll's copy of the pending entry is current. */
  ghost predicate PollCurrent(pending: Pending, poll: Poll, who: Option<OrderId>) {
    who.Some? && poll.Polling? && who.value in pending ==>
      && (forall k :: 0 <= k < |poll.todo| && poll.todo[k].0 == who.value ==> poll.todo[k].1 == pending[who.value])
      && (poll.at.Seen? && poll.at.id == who.value ==> poll.at.ctx == pending[who.value])
  }

  ghost predicate NoRowOf(rows: seq<Row>, c: Contract) {
    forall k :: 0 <= k < |rows| ==> !rows[k].OpenFor(c)
  }

  /** Between the commit of the first fill and the re-check the row is still to be opened. */
  ghost predicate RowsFollow(rows: seq<Row>, poll: Poll, positions: Positions, c: Contract) {
    if poll.Polling? && poll.at.Opening? && poll.at.ctx.contract == c then
      c in positions && positions[c].entryPremium == poll.at.price && positions[c].qty == poll.at.qty && NoRowOf(rows, c)
    else RowsMatch(RowsToBe(rows, poll), c, positions)
  }

  ghost predicate OpeningInv(s: State, c: Contract, who: Option<OrderId>) {
    && s.p.reconciled && c !in s.p.sells
    && OnlyOrder(s.b, c, who) && OnlyPending(s.p.pending, c, who) && OnlyCall(s.p.buys, c, who)
    && SeenSoFar(s.b, s.p.positions, s.p.pending, s.p.buys, c, who)
    && PollCurrent(s.p.pending, s.p.poll, who)
    && RowsFollow(s.rows, s.p.poll, s.p.positions, c)
  }

  /** When nothing of the BUY is outstanding any more, the contract is balanced. */
  lemma OverIsBalanced(s: State, c: Contract, who: Option<OrderId>)
    requires Inv(s) && OpeningInv(s, c, who) && BuysOver(s.b, s.p, c)
    ensures ExitInv(s, c)
  {
    assert forall i :: !ExitOf(s.p.pending, s.p.sells, c, i);
    if who.Some? {
      var id := who.value;
      forall i | i in s.p.pending && s.p.pending[i].BuyCtx? ensures s.p.pending[i].contract != c && Names(s.b, i, s.p.pending[i]) {
        assert s.p.pending[i].contract == c ==> i in BuysPending(s.p.pending, c);
      }
      forall t | t in s.p.buys ensures s.p.buys[t].at != Sent(id) {
        assert BuyCallOk(s.b, s.p.buys[t]);
      }
    }
  }

  // ----- the venue

  lemma AdvanceOpens(s: State, c: Contract, who: Option<OrderId>, id: OrderId, n: nat, avgPrice: real, status: OrderStatus)
    requires OpeningInv(s, c, who)
    ensures OpeningInv(Apply(s, BrokerAdvance(id, n, avgPrice, status)), c, who)
  {
    var b' := s.b.Advance(id, n, avgPrice, status);
    if b' != s.b {
      var o := s.b.orders[id];
      assert b'.Net(c) == if o.contract != c then s.b.Net(c) else if o.side == Buy then s.b.Net(c) + n else s.b.Net(c) - n;
    }
  }

  // ----- the poll

  /** The poll moves on without touching `c`. */
  lemma PollMovesOpening(s: State, c: Contract, who: Option<OrderId>, p': Proc)
    requires OpeningInv(s, c, who)
    requires p' == s.p.(positions := p'.positions, pending := p'.pending, poll := p'.poll)
    requires c in p'.positions <==> c in s.p.positions
    requires c in p'.positions ==> p'.positions[c] == s.p.positions[c]
    requires forall i :: i in p'.pending ==> i in s.p.pending && p'.pending[i].contract == s.p.pending[i].contract
    requires forall i :: i in p'.pending && p'.pending[i].contract == c ==> p'.pending[i] == s.p.pending[i]
    requires who.Some? && who.value in s.p.pending ==> who.value in p'.pending && p'.pending[who.value] == s.p.pending[who.value]
    requires PollCurrent(s.p.pending, p'.poll, who)
    requires RowsFollow(s.rows, p'.poll, s.p.positions, c)
    ensures OpeningInv(s.(p := p'), c, who)
  {
    assert SeenSoFar(s.b, p'.positions, p'.pending, s.p.buys, c, who);
    assert RowsFollow(s.rows, p'.poll, p'.positions, c);
  }

  lemma PollBeginOpens(s: State, c: Contract, who: Option<OrderId>, ids: seq<OrderId>)
    requires OpeningInv(s, c, who)
    ensures OpeningInv(Apply(s, PollBegin(ids)), c, who)
  {
    if s.p.poll.Idle? {
      PollMovesOpening(s, c, who, PollBeginStep(s.p, ids));
    }
  }

  lemma PollReadOpens(s: State, c: Contract, who: Option<OrderId>, ok: bool)
    requires OpeningInv(s, c, who)
    ensures OpeningInv(Apply(s, PollRead(ok)), c, who)
  {
    if s.p.poll.Polling? && s.p.poll.at.Ready? {
      if s.p.poll.todo == [] {
        PollMovesOpening(s, c, who, s.p.(poll := Idle));
      } else {
        ReadTakesHead(s.b, s.p, ok);
        ReadOpens(s, c, who, ok);
      }
    }
  }

  lemma ReadOpens(s: State, c: Contract, who: Option<OrderId>, ok: bool)
    requires OpeningInv(s, c, who) && s.p.poll.Polling? && s.p.poll.at.Ready? && s.p.poll.todo != []
    ensures OpeningInv(s.(p := PollReadStep(s.b, s.p, ok)), c, who)
  {
    var p' := PollReadStep(s.b, s.p, ok);
    ReadTakesHead(s.b, s.p, ok);
    var id := s.p.poll.todo[0].0;
    if id in s.b.orders || !ok {
      assert p'.pending == s.p.pending;
    }
    PollMovesOpening(s, c, who, p');
  }

  lemma PollRecheckOpens(s: State, c: Contract, who: Option<OrderId>)
    requires OpeningInv(s, c, who)
    ensures OpeningInv(Apply(s, PollRecheck), c, who)
  {
    if s.p.poll.Polling? && s.p.poll.at.Opening? && s.p.poll.at.ctx.BuyCtx? {
      var p' := PollRecheckStep(s.p);
      RecheckRows(s.p, s.rows, c);
      PollMovesOpening(s, c, who, p');
    }
  }

  lemma RecheckRows(p: Proc, rows: seq<Row>, c: Contract)
    requires p.poll.Polling? && p.poll.at.Opening? && p.poll.at.ctx.BuyCtx? && RowsFollow(rows, p.poll, p.positions, c)
    ensures RowsFollow(rows, PollRecheckStep(p).poll, p.positions, c)
  {
    var Opening(id, ctx, price, qty) := p.poll.at;
    if ctx.contract == c {
      var rows' := rows + [Row(c, ctx.terms, price, qty, None)];
      assert rows'[|rows|].OpenFor(c);
    } else if ctx.contract in p.positions {
      DbOfOther(rows, OpenRow(id, Row(ctx.contract, ctx.terms, price, qty, None)), c, p.positions);
    }
  }

  lemma PollStoreOpens(s: State, c: Contract, who: Option<OrderId>)
    requires OpeningInv(s, c, who)
    ensures OpeningInv(Apply(s, PollStore(true)), c, who)
  {
    var t := Apply(s, PollStore(true));
    if s.p.poll.Polling? && s.p.poll.at.Storing? {
      assert t.rows == RowsToBe(s.rows, s.p.poll);
      assert t.p == s.p.(poll := Polling(s.p.poll.todo, Ready), events := t.p.events, inserts := t.p.inserts);
    }
  }

  // ----- the commit of the BUY itself

  /** The poll has just read `who`. */
  ghost predicate SeenWho(s: State, c: Contract, id: OrderId, ctx: Ctx, o: Order) {
    && s.p.poll.Polling? && s.p.poll.at == Seen(id, ctx, o)
    && ctx.BuyCtx? && ctx.contract == c && Earlier(s.b, id, o)
    && forall k :: 0 <= k < |s.p.poll.todo| ==> s.p.poll.todo[k].0 != id
  }

  lemma FillRows(rows: seq<Row>, todo: seq<(OrderId, Ctx)>, positions: Positions, id: OrderId, ctx: Ctx, price: real, qty: nat)
    requires ctx.BuyCtx? && RowsMatch(rows, ctx.contract, positions) && (ctx.rowOpened <==> ctx.contract in positions)
    ensures RowsFollow(rows,
      Polling(todo, if ctx.rowOpened then Storing(Some(UpdateRow(ctx.contract, price, qty)), None) else Opening(id, ctx, price, qty)),
      positions[ctx.contract := Position(ctx.terms, price, qty)], ctx.contract)
  {
    if ctx.rowOpened {
      RowsAfterFill(rows, ctx.contract, positions, ctx, id, price, qty);
    }
  }

  lemma FillOpens(s: State, c: Contract, id: OrderId, ctx: Ctx, o: Order)
    requires OpeningInv(s, c, Some(id)) && SeenWho(s, c, id, ctx, o) && id in s.p.pending && o.filled > 0
    requires !SentBy(s.p.buys, id)
    ensures OpeningInv(s.(p := SettleBuy(s.p, id, ctx, o)), c, Some(id))
  {
    var p' := SettleBuy(s.p, id, ctx, o);
    assert PollCurrent(s.p.pending, s.p.poll, Some(id));
    FillRows(s.rows, s.p.poll.todo, s.p.positions, id, ctx, o.avgPrice, o.filled);
    assert RowsFollow(s.rows, p'.poll, p'.positions, c);
    forall i | i in p'.pending && p'.pending[i].contract == c ensures i == id && p'.pending[i].BuyCtx? {
      assert i in s.p.pending && s.p.pending[i].contract == p'.pending[i].contract;
    }
    assert SeenSoFar(s.b, p'.positions, p'.pending, s.p.buys, c, Some(id)) by {
      if !o.Open() {
        assert o == s.b.orders[id];
      }
    }
  }

  lemma EndOpens(s: State, c: Contract, id: OrderId, ctx: Ctx, o: Order)
    requires OpeningInv(s, c, Some(id)) && SeenWho(s, c, id, ctx, o) && o.filled == 0 && !o.Open()
    requires !SentBy(s.p.buys, id)
    ensures OpeningInv(s.(p := SettleBuy(s.p, id, ctx, o)), c, Some(id))
  {
    assert o == s.b.orders[id];
    assert c !in s.p.positions;
  }

  lemma QuietOpens(s: State, c: Contract, id: OrderId, ctx: Ctx, o: Order)
    requires OpeningInv(s, c, Some(id)) && SeenWho(s, c, id, ctx, o)
    requires if o.filled > 0 then id !in s.p.pending else o.Open()
    ensures OpeningInv(s.(p := SettleBuy(s.p, id, ctx, o)), c, Some(id))
  {
    PollMovesOpening(s, c, Some(id), SettleBuy(s.p, id, ctx, o));
  }

  lemma CommitWhoOpens(s: State, c: Contract, id: OrderId, ctx: Ctx, o: Order)
    requires Inv(s) && OnceInv(s) && OpeningInv(s, c, Some(id)) && SeenWho(s, c, id, ctx, o)
    ensures OpeningInv(Apply(s, PollCommit), c, Some(id))
  {
    assert Polled(s.p.poll, id) && Met(EventIds(s.p.events), s.p.pending, s.p.poll, id);
    if o.filled > 0 && id in s.p.pending {
      FillOpens(s, c, id, ctx, o);
    } else if o.filled == 0 && !o.Open() {
      EndOpens(s, c, id, ctx, o);
    } else {
      QuietOpens(s, c, id, ctx, o);
    }
  }

  /** The commit of another order: of another contract, or of an old order of this one. */
  lemma CommitOtherOpens(s: State, c: Contract, who: Option<OrderId>, id: OrderId, ctx: Ctx, o: Order)
    requires OpeningInv(s, c, who) && s.p.poll.Polling? && s.p.poll.at == Seen(id, ctx, o) && who != Some(id)
    requires id in s.p.pending ==> s.p.pending[id].contract == ctx.contract
    ensures OpeningInv(Apply(s, PollCommit), c, who)
  {
    var p' := PollCommitStep(s.p);
    SettleFrame(s.p, c, id, ctx, o);
    if p'.poll.Polling? && p'.poll.at.Storing? && p'.poll.at.op.Some? {
      DbOfOther(s.rows, p'.poll.at.op.value, c, s.p.positions);
    }
    SettledElsewhereOpens(s, c, who, id, p');
  }

  lemma SettledElsewhereOpens(s: State, c: Contract, who: Option<OrderId>, id: OrderId, p': Proc)
    requires OpeningInv(s, c, who) && SettlesElsewhere(s.p, p', c, id) && who != Some(id)
    requires s.p.poll.Polling? && p'.poll.Polling? && p'.poll.todo == s.p.poll.todo && !p'.poll.at.Seen?
    requires RowsMatch(RowsToBe(s.rows, p'.poll), c, s.p.positions)
    ensures OpeningInv(s.(p := p'), c, who)
  {
    forall i | i in p'.pending && p'.pending[i].contract == c ensures who == Some(i) && p'.pending[i].BuyCtx? {
      assert i in s.p.pending && s.p.pending[i] == p'.pending[i];
    }
  }

  lemma PollCommitOpens(s: State, c: Contract, who: Option<OrderId>)
    requires Inv(s) && OnceInv(s) && OpeningInv(s, c, who)
    ensures OpeningInv(Apply(s, PollCommit), c, who)
  {
    if s.p.poll.Polling? && s.p.poll.at.Seen? {
      var Seen(id, ctx, o) := s.p.poll.at;
      assert Names(s.b, id, ctx) && Earlier(s.b, id, o);
      assert id in s.p.pending ==> Names(s.b, id, s.p.pending[id]);
      if who == Some(id) {
        CommitWhoOpens(s, c, id, ctx, o);
      } else {
        CommitOtherOpens(s, c, who, id, ctx, o);
      }
    }
  }

  // ----- buy_option

  lemma CallsMoveOpening(s: State, c: Contract, who: Option<OrderId>, buys': Buys)
    requires OpeningInv(s, c, who) && OnlyCall(buys', c, who)
    requires who.Some? ==> (SentBy(buys', who.value) <==> SentBy(s.p.buys, who.value))
    ensures OpeningInv(s.(p := s.p.(buys := buys')), c, who)
  {
  }

  lemma BuyAdmitOpens(s: State, c: Contract, who: Option<OrderId>, tid: nat, d: Contract, terms: Terms, qty: nat)
    requires OpeningInv(s, c, who)
    ensures OpeningInv(Apply(s, BuyAdmit(tid, d, terms, qty)), c, who)
  {
    if s.p.reconciled && tid !in s.p.buys {
      var buys' := s.p.buys[tid := BuyCall(d, terms, qty, Admitted)];
      SentKept(s.p.buys, buys', tid, who);
      assert forall t :: Past(buys', c, t) ==> Past(s.p.buys, c, t);
      CallsMoveOpening(s, c, who, buys');
    }
  }

  /** Changing one call that has submitted nothing, to another such, leaves the submitted ones. */
  lemma SentKept(buys: Buys, buys': Buys, tid: nat, who: Option<OrderId>)
    requires forall t :: t != tid ==> (t in buys' <==> t in buys) && (t in buys' ==> buys'[t] == buys[t])
    requires tid in buys ==> !buys[tid].at.Sent?
    requires tid in buys' ==> !buys'[tid].at.Sent?
    ensures who.Some? ==> (SentBy(buys', who.value) <==> SentBy(buys, who.value))
  {
    if who.Some? {
      forall t | t in buys && buys[t].at == Sent(who.value) ensures t in buys' && buys'[t].at == Sent(who.value) {
        assert t != tid;
      }
      forall t | t in buys' && buys'[t].at == Sent(who.value) ensures t in buys && buys[t].at == Sent(who.value) {
        assert t != tid;
      }
    }
  }

  /** A call past the duplicate check goes on, or any call gives up. */
  lemma CallStepOpens(s: State, c: Contract, who: Option<OrderId>, tid: nat, next: Option<BuyCall>)
    requires OpeningInv(s, c, who) && tid in s.p.buys && !s.p.buys[tid].at.Sent?
    requires next.Some? ==> next.value.contract == s.p.buys[tid].contract && !next.value.at.Sent?
    requires next.Some? && next.value.contract == c ==> !s.p.buys[tid].at.Admitted?
    ensures OpeningInv(s.(p := s.p.(buys := if next.Some? then s.p.buys[tid := next.value] else s.p.buys - {tid})), c, who)
  {
    var buys' := if next.Some? then s.p.buys[tid := next.value] else s.p.buys - {tid};
    SentKept(s.p.buys, buys', tid, who);
    assert forall t :: Past(buys', c, t) ==> Past(s.p.buys, c, t);
    CallsMoveOpening(s, c, who, buys');
  }

  lemma BuyCheckMemoryOpens(s: State, c: Contract, who: Option<OrderId>, tid: nat)
    requires OpeningInv(s, c, who) && !Reenters(s.p, c, BuyCheckMemory(tid))
    ensures OpeningInv(Apply(s, BuyCheckMemory(tid)), c, who)
  {
    if tid in s.p.buys && s.p.buys[tid].at.Admitted? {
      var call := s.p.buys[tid];
      if BuysPending(s.p.pending, call.contract) != {} || call.contract in s.p.positions {
        CallStepOpens(s, c, who, tid, None);
      } else {
        CallStepOpens(s, c, who, tid, Some(call.(at := MemoryChecked)));
      }
    }
  }

  lemma BuyCheckBrokerOpens(s: State, c: Contract, who: Option<OrderId>, tid: nat, ok: bool)
    requires OpeningInv(s, c, who)
    ensures OpeningInv(Apply(s, BuyCheckBroker(tid, ok)), c, who)
  {
    if tid in s.p.buys && s.p.buys[tid].at.MemoryChecked? {
      var call := s.p.buys[tid];
      CallStepOpens(s, c, who, tid, if ok && s.b.Net(call.contract) != 0 then None else Some(call.(at := Cleared)));
    }
  }

  lemma BuyGiveUpOpens(s: State, c: Contract, who: Option<OrderId>, tid: nat)
    requires OpeningInv(s, c, who)
    ensures OpeningInv(Apply(s, BuyGiveUp(tid)), c, who)
  {
    if tid in s.p.buys && !s.p.buys[tid].at.Sent? {
      CallStepOpens(s, c, who, tid, None);
    }
  }

  /** The BUY after a submit: the new order, if it is the first one of `c`. */
  function NewWho(p: Proc, c: Contract, who: Option<OrderId>, tid: nat, id: OrderId): Option<OrderId> {
    if tid in p.buys && p.buys[tid].contract == c then Some(id) else who
  }

  lemma SubmitOtherOpens(s: State, c: Contract, who: Option<OrderId>, tid: nat, id: OrderId)
    requires OpeningInv(s, c, who) && tid in s.p.buys && s.p.buys[tid].at.Cleared? && s.p.buys[tid].contract != c && id !in s.b.orders
    ensures OpeningInv(Apply(s, BuySubmit(tid, id)), c, who)
  {
    var t := Apply(s, BuySubmit(tid, id));
    assert forall u :: Past(t.p.buys, c, u) ==> Past(s.p.buys, c, u) && u != tid;
    if who.Some? {
      assert who.value != id;
      forall u | u in s.p.buys && s.p.buys[u].at == Sent(who.value) ensures u in t.p.buys && t.p.buys[u].at == Sent(who.value) {
        assert u != tid;
      }
    }
    assert t.b.Net(c) == s.b.Net(c);
  }

  lemma SubmitWhoOpens(s: State, c: Contract, who: Option<OrderId>, tid: nat, id: OrderId)
    requires OpeningInv(s, c, who) && tid in s.p.buys && s.p.buys[tid].at.Cleared? && s.p.buys[tid].contract == c && id !in s.b.orders
    requires PendingNamed(s.b, s.p.pending)
    ensures OpeningInv(Apply(s, BuySubmit(tid, id)), c, Some(id))
  {
    var t := Apply(s, BuySubmit(tid, id));
    assert Past(s.p.buys, c, tid) && who.None?;
    assert id in s.p.pending ==> Names(s.b, id, s.p.pending[id]);
    assert t.p.buys[tid].at == Sent(id) && SentBy(t.p.buys, id);
    forall u | Past(t.p.buys, c, u) ensures u == tid {
      assert Past(s.p.buys, c, u);
    }
    assert t.b.Net(c) == s.b.Net(c);
  }

  lemma BuyRegisterOpens(s: State, c: Contract, who: Option<OrderId>, tid: nat)
    requires Inv(s) && OnceInv(s) && OpeningInv(s, c, who)
    ensures OpeningInv(Apply(s, BuyRegister(tid)), c, who)
  {
    if tid in s.p.buys && s.p.buys[tid].at.Sent? {
      assert BuyCallOk(s.b, s.p.buys[tid]);
      assert !Met(EventIds(s.p.events), s.p.pending, s.p.poll, s.p.buys[tid].at.id);
      if s.p.buys[tid].contract == c {
        assert Past(s.p.buys, c, tid);
        RegisterWhoOpens(s, c, tid, s.p.buys[tid].at.id);
      } else {
        RegisterOtherOpens(s, c, who, tid, s.p.buys[tid].at.id);
      }
    }
  }

  lemma RegisterWhoOpens(s: State, c: Contract, tid: nat, id: OrderId)
    requires OpeningInv(s, c, Some(id)) && tid in s.p.buys && s.p.buys[tid].at == Sent(id) && s.p.buys[tid].contract == c
    requires !Met(EventIds(s.p.events), s.p.pending, s.p.poll, id)
    ensures OpeningInv(Apply(s, BuyRegister(tid)), c, Some(id))
  {
    var t := Apply(s, BuyRegister(tid));
    assert Past(s.p.buys, c, tid) && SentBy(s.p.buys, id);
    assert forall u :: !Past(t.p.buys, c, u) by {
      assert forall u :: Past(t.p.buys, c, u) ==> Past(s.p.buys, c, u) && u != tid;
    }
    forall k | s.p.poll.Polling? && 0 <= k < |s.p.poll.todo| ensures s.p.poll.todo[k].0 != id {
      assert !Polled(s.p.poll, id);
    }
  }

  lemma RegisterOtherOpens(s: State, c: Contract, who: Option<OrderId>, tid: nat, id: OrderId)
    requires OpeningInv(s, c, who) && tid in s.p.buys && s.p.buys[tid].at == Sent(id) && s.p.buys[tid].contract != c
    requires id in s.b.orders && s.b.orders[id].contract != c && id !in s.p.pending
    ensures OpeningInv(Apply(s, BuyRegister(tid)), c, who)
  {
    var t := Apply(s, BuyRegister(tid));
    assert forall u :: Past(t.p.buys, c, u) ==> Past(s.p.buys, c, u);
    if who.Some? {
      assert who.value != id;
      forall u | u in s.p.buys && s.p.buys[u].at == Sent(who.value) ensures u in t.p.buys && t.p.buys[u].at == Sent(who.value) {
        assert u != tid;
      }
    }
  }

  // ----- sales of other contracts

  /** A sale of another contract leaves everything about `c` alone. */
  lemma OtherSaleOpens(s: State, c: Contract, who: Option<OrderId>, t: State)
    requires OpeningInv(s, c, who) && OnlyOrder(t.b, c, who) && FilledOf(t.b, who) == FilledOf(s.b, who)
    requires who.Some? && who.value in t.b.orders ==> who.value in s.b.orders && t.b.orders[who.value] == s.b.orders[who.value]
    requires t.rows == s.rows && c !in t.p.sells
    requires t.p == s.p.(positions := t.p.positions, pending := t.p.pending, sells := t.p.sells)
    requires c in t.p.positions <==> c in s.p.positions
    requires c in t.p.positions ==> t.p.positions[c] == s.p.positions[c]
    requires forall i :: i in t.p.pending && t.p.pending[i].contract == c ==> i in s.p.pending && t.p.pending[i] == s.p.pending[i]
    requires who.Some? ==> (who.value in t.p.pending <==> who.value in s.p.pending)
    requires who.Some? && who.value in t.p.pending ==> t.p.pending[who.value] == s.p.pending[who.value]
    ensures OpeningInv(t, c, who)
  {
  }

  lemma SellBeginOpens(s: State, c: Contract, who: Option<OrderId>, d: Contract, reason: string)
    requires OpeningInv(s, c, who) && d != c
    ensures OpeningInv(Apply(s, SellBegin(d, reason)), c, who)
  {
    OtherSaleOpens(s, c, who, Apply(s, SellBegin(d, reason)));
  }

  lemma CancelElsewhere(b: Broker, c: Contract, who: Option<OrderId>, id: OrderId)
    requires OnlyOrder(b, c, who) && b.CanCancel(id) && b.orders[id].contract != c
    ensures OnlyOrder(b.Cancel(id), c, who) && FilledOf(b.Cancel(id), who) == FilledOf(b, who)
    ensures who.Some? ==> b.Cancel(id).orders[who.value] == b.orders[who.value]
  {
    assert b.Cancel(id).Net(c) == b.Net(c);
  }

  lemma SellCancelOpens(s: State, c: Contract, who: Option<OrderId>, d: Contract, id: OrderId, ok: bool)
    requires Inv(s) && OpeningInv(s, c, who)
    ensures OpeningInv(Apply(s, SellCancel(d, id, ok)), c, who)
  {
    if d in s.p.sells && s.p.sells[d].at.Cancelling? && id in s.p.sells[d].at.todo {
      assert SellCallOk(s.b, s.p.pending, d, s.p.sells[d]);
      if ok && s.b.CanCancel(id) {
        CancelElsewhere(s.b, c, who, id);
      }
      OtherSaleOpens(s, c, who, SellCancelStep(s, d, id, ok));
    }
  }

  lemma DropOpens(s: State, c: Contract, who: Option<OrderId>, d: Contract)
    requires PendingNamed(s.b, s.p.pending) && OpeningInv(s, c, who) && d != c
    ensures OpeningInv(s.(p := s.p.(positions := s.p.positions - {d}, pending := WithoutContract(s.p.pending, d),
                                    sells := s.p.sells - {d})), c, who)
  {
    if who.Some? && who.value in s.p.pending {
      assert Names(s.b, who.value, s.p.pending[who.value]);
    }
    OtherSaleOpens(s, c, who, s.(p := s.p.(positions := s.p.positions - {d}, pending := WithoutContract(s.p.pending, d),
                                           sells := s.p.sells - {d})));
  }

  lemma SellSizeOpens(s: State, c: Contract, who: Option<OrderId>, d: Contract, ok: bool)
    requires Inv(s) && OpeningInv(s, c, who)
    ensures OpeningInv(Apply(s, SellSize(d, ok)), c, who)
  {
    if d in s.p.sells && s.p.sells[d].at == Cancelling({}) {
      if ok && s.b.Net(d) <= 0 {
        DropOpens(s, c, who, d);
      } else {
        OtherSaleOpens(s, c, who, s.(p := SellSizeStep(s.b, s.p, d, ok)));
      }
    }
  }

  lemma SellSubmitOpens(s: State, c: Contract, who: Option<OrderId>, d: Contract, id: OrderId, ok: bool)
    requires OpeningInv(s, c, who)
    ensures OpeningInv(Apply(s, SellSubmit(d, id, ok)), c, who)
  {
    if d in s.p.sells && s.p.sells[d].at.Sized? && (!ok || id !in s.b.orders) {
      var t := Apply(s, SellSubmit(d, id, ok));
      assert t.b.Net(c) == s.b.Net(c);
      OtherSaleOpens(s, c, who, t);
    }
  }

  lemma SellRegisterOpens(s: State, c: Contract, who: Option<OrderId>, d: Contract)
    requires Inv(s) && OpeningInv(s, c, who)
    ensures OpeningInv(Apply(s, SellRegister(d)), c, who)
  {
    if d in s.p.sells && s.p.sells[d].at.SellSent? {
      assert SellCallOk(s.b, s.p.pending, d, s.p.sells[d]);
      var id := s.p.sells[d].at.id;
      assert id in s.p.pending ==> Names(s.b, id, s.p.pending[id]);
      OtherSaleOpens(s, c, who, Apply(s, SellRegister(d)));
    }
  }

  // ----- every run

  /** What a run must not do: die, lose a DB write, begin to sell the contract, or let a second BUY in. */
  ghost predicate Interrupts(s: State, c: Contract, st: Step) {
    Disturbs(s, c, st) || (st.SellBegin? && st.contract == c)
  }

  function WhoAfter(s: State, c: Contract, who: Option<OrderId>, st: Step): Option<OrderId> {
    if st.BuySubmit? && Apply(s, st) != s then NewWho(s.p, c, who, st.tid, st.id) else who
  }

  lemma PollOpens(s: State, c: Contract, who: Option<OrderId>, st: Step)
    requires Inv(s) && OnceInv(s) && OpeningInv(s, c, who) && IsPollStep(st) && st != PollStore(false)
    ensures OpeningInv(Apply(s, st), c, who)
  {
    match st
    case PollBegin(ids) => PollBeginOpens(s, c, who, ids);
    case PollRead(ok) => PollReadOpens(s, c, who, ok);
    case PollCommit => PollCommitOpens(s, c, who);
    case PollRecheck => PollRecheckOpens(s, c, who);
    case PollStore(_) => PollStoreOpens(s, c, who);
  }

  lemma SellerOpens(s: State, c: Contract, who: Option<OrderId>, st: Step)
    requires Inv(s) && OpeningInv(s, c, who) && IsSellStep(st) && !(st.SellBegin? && st.contract == c)
    ensures OpeningInv(Apply(s, st), c, who)
  {
    match st
    case SellBegin(d, reason) => SellBeginOpens(s, c, who, d, reason);
    case SellCancel(d, id, ok) => SellCancelOpens(s, c, who, d, id, ok);
    case SellSize(d, ok) => SellSizeOpens(s, c, who, d, ok);
    case SellSubmit(d, id, ok) => SellSubmitOpens(s, c, who, d, id, ok);
    case SellRegister(d) => SellRegisterOpens(s, c, who, d);
  }

  lemma BuySubmitOpens(s: State, c: Contract, who: Option<OrderId>, tid: nat, id: OrderId)
    requires Inv(s) && OpeningInv(s, c, who)
    ensures OpeningInv(Apply(s, BuySubmit(tid, id)), c, WhoAfter(s, c, who, BuySubmit(tid, id)))
  {
    if tid in s.p.buys && s.p.buys[tid].at.Cleared? && id !in s.b.orders {
      assert id in Apply(s, BuySubmit(tid, id)).b.orders;
      if s.p.buys[tid].contract == c {
        SubmitWhoOpens(s, c, who, tid, id);
      } else {
        SubmitOtherOpens(s, c, who, tid, id);
      }
    }
  }

  lemma BuyerOpens(s: State, c: Contract, who: Option<OrderId>, st: Step)
    requires Inv(s) && OnceInv(s) && OpeningInv(s, c, who) && IsBuyStep(st) && !Reenters(s.p, c, st)
    ensures OpeningInv(Apply(s, st), c, WhoAfter(s, c, who, st))
  {
    match st
    case BuyAdmit(tid, d, terms, qty) => BuyAdmitOpens(s, c, who, tid, d, terms, qty);
    case BuyCheckMemory(tid) => BuyCheckMemoryOpens(s, c, who, tid);
    case BuyCheckBroker(tid, ok) => BuyCheckBrokerOpens(s, c, who, tid, ok);
    case BuyGiveUp(tid) => BuyGiveUpOpens(s, c, who, tid);
    case BuySubmit(tid, id) => BuySubmitOpens(s, c, who, tid, id);
    case BuyRegister(tid) => BuyRegisterOpens(s, c, who, tid);
  }

  lemma ReconcilerOpens(s: State, c: Contract, who: Option<OrderId>, st: Step)
    requires Inv(s) && OpeningInv(s, c, who) && IsReconStep(st)
    ensures OpeningInv(Apply(s, st), c, who)
  {
    assert Apply(s, st) == s;
  }

  lemma StepOpens(s: State, c: Contract, who: Option<OrderId>, st: Step)
    requires Inv(s) && OnceInv(s) && OpeningInv(s, c, who) && !Interrupts(s, c, st)
    ensures OpeningInv(Apply(s, st), c, WhoAfter(s, c, who, st))
  {
    if IsPollStep(st) {
      PollOpens(s, c, who, st);
    } else if IsSellStep(st) {
      SellerOpens(s, c, who, st);
    } else if IsBuyStep(st) {
      BuyerOpens(s, c, who, st);
    } else if IsReconStep(st) {
      ReconcilerOpens(s, c, who, st);
    } else {
      AdvanceOpens(s, c, who, st.id, st.n, st.avgPrice, st.status);
    }
  }

  ghost predicate Uninterrupted(s: State, c: Contract, steps: seq<Step>)
    decreases |steps|
  {
    steps != [] ==> !Interrupts(s, c, steps[0]) && Uninterrupted(Apply(s, steps[0]), c, steps[1..])
  }

  lemma {:induction false} RunOpens(s: State, c: Contract, who: Option<OrderId>, steps: seq<Step>) returns (who': Option<OrderId>)
    requires Inv(s) && OnceInv(s) && OpeningInv(s, c, who) && Uninterrupted(s, c, steps)
    ensures Inv(Run(s, steps)) && OpeningInv(Run(s, steps), c, who')
    decreases |steps|
  {
    if steps == [] {
      who' := who;
    } else {
      StepOpens(s, c, who, steps[0]);
      StepKeeps(s, steps[0]);
      StepKeepsOnce(s, steps[0]);
      who' := RunOpens(Apply(s, steps[0]), c, WhoAfter(s, c, who, steps[0]), steps[1..]);
    }
  }

  lemma EntryOpens(s: State, c: Contract, tid: nat)
    requires Inv(s) && ExitInv(s, c) && Flat(s, c) && c !in s.p.sells && !SellPending(s.p.pending, c)
    requires Reenters(s.p, c, BuyCheckMemory(tid))
    ensures OpeningInv(Apply(s, BuyCheckMemory(tid)), c, None)
  {
    var t := Apply(s, BuyCheckMemory(tid));
    forall i | i in s.p.pending ensures s.p.pending[i].contract != c {
      assert s.p.pending[i].BuyCtx? && s.p.pending[i].contract == c ==> i in BuysPending(s.p.pending, c);
    }
    forall i | s.b.OpenSell(i) ensures s.b.orders[i].contract != c {
      assert Watched(i, s.b.orders[i].contract, s.p.pending, s.p.sells, s.p.recon);
      assert i in s.p.pending ==> Names(s.b, i, s.p.pending[i]);
    }
    assert forall u :: Past(t.p.buys, c, u) ==> u == tid;
  }

  /** The main result: from a flat contract, let one BUY past the duplicate check. Any run after that
      without a crash, a lost write, a sale or a second BUY of the contract, in which nothing of the
      BUY is outstanding at the end, ends balanced: what is tracked is what the venue holds, and the
      open row repeats it. */
  lemma OpenedIsBalanced(s: State, c: Contract, tid: nat, steps: seq<Step>)
    requires Inv(s) && OnceInv(s) && ExitInv(s, c) && Flat(s, c) && c !in s.p.sells && !SellPending(s.p.pending, c)
    requires Reenters(s.p, c, BuyCheckMemory(tid)) && Uninterrupted(Apply(s, BuyCheckMemory(tid)), c, steps)
    ensures var t := Run(Apply(s, BuyCheckMemory(tid)), steps);
      BuysOver(t.b, t.p, c) ==> ExitInv(t, c)
  {
    var s1 := Apply(s, BuyCheckMemory(tid));
    EntryOpens(s, c, tid);
    StepKeeps(s, BuyCheckMemory(tid));
    StepKeepsOnce(s, BuyCheckMemory(tid));
    var who := RunOpens(s1, c, None, steps);
    if BuysOver(Run(s1, steps).b, Run(s1, steps).p, c) {
      OverIsBalanced(Run(s1, steps), c, who);
    }
  }

  /** In particular the last poll of the BUY balances the contract at once: commit, re-check and store. */
  lemma LastPollBalances(s: State, c: Contract, id: OrderId, ctx: Ctx, o: Order)
    requires Inv(s) && OnceInv(s) && OpeningInv(s, c, Some(id))
    requires s.p.poll.Polling? && s.p.poll.at == Seen(id, ctx, o) && !o.Open() && id in s.p.pending
    ensures ExitInv(FinishPoll(s), c)
  {
    var s1 := Apply(s, PollCommit);
    var s2 := Apply(s1, PollRecheck);
    var s3 := Apply(s2, PollStore(true));
    assert Names(s.b, id, ctx) && Earlier(s.b, id, o);
    PollCommitOpens(s, c, Some(id));
    PollRecheckOpens(s1, c, Some(id));
    PollStoreOpens(s2, c, Some(id));
    StepKeeps(s, PollCommit);
    StepKeeps(s1, PollRecheck);
    StepKeeps(s2, PollStore(true));
    NothingOutstanding(s, c, id, ctx, o);
    OverIsBalanced(s3, c, Some(id));
  }

  ghost predicate BuyEnded(s: State, t: State, id: OrderId) {
    && s.p.poll.Polling? && t.b == s.b && t.p.pending == s.p.pending - {id} && t.p.buys == s.p.buys
    && t.p.poll == Polling(s.p.poll.todo, Ready)
  }

  lemma UnfilledEnds(s: State, id: OrderId, ctx: Ctx, o: Order)
    requires s.p.poll.Polling? && s.p.poll.at == Seen(id, ctx, o) && ctx.BuyCtx? && !o.Open() && o.filled == 0
    ensures BuyEnded(s, FinishPoll(s), id)
  {
    var s1 := Apply(s, PollCommit);
    assert s1.p.poll.at.Storing? && Apply(s1, PollRecheck) == s1;
  }

  lemma PollEndsBuy(s: State, id: OrderId, ctx: Ctx, o: Order)
    requires s.p.poll.Polling? && s.p.poll.at == Seen(id, ctx, o) && ctx.BuyCtx? && !o.Open() && id in s.p.pending
    ensures BuyEnded(s, FinishPoll(s), id)
  {
    if o.filled > 0 {
      FillPolled(s, ctx.contract, id, ctx, o);
    } else {
      UnfilledEnds(s, id, ctx, o);
    }
  }

  lemma NothingOutstanding(s: State, c: Contract, id: OrderId, ctx: Ctx, o: Order)
    requires OnceInv(s) && OpeningInv(s, c, Some(id)) && Earlier(s.b, id, o) && ctx.BuyCtx?
    requires s.p.poll.Polling? && s.p.poll.at == Seen(id, ctx, o) && !o.Open() && id in s.p.pending
    ensures BuysOver(s.b, FinishPoll(s).p, c) && FinishPoll(s).b == s.b
  {
    PollEndsBuy(s, id, ctx, o);
    assert Met(EventIds(s.p.events), s.p.pending, s.p.poll, id);
    assert forall t :: t in s.p.buys ==> s.p.buys[t].at != Sent(id);
    assert forall t :: t in s.p.buys && s.p.buys[t].contract == c && !s.p.buys[t].at.Admitted? ==> Past(s.p.buys, c, t);
    assert BuysPending(s.p.pending - {id}, c) == {};
  }
}
