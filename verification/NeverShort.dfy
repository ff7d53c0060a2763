/** In every interleaving the venue's option positions stay long: one open SELL per contract at most,
    always covered, and watched by the process from the moment it is reconciled. */
module NeverShort {
  import opened Wrappers
  import opened OptionBroker
  import opened OptionProtocol

  ghost predicate Names(b: Broker, id: OrderId, ctx: Ctx) {
    && id in b.orders
    && b.orders[id].contract == ctx.contract
    && (b.orders[id].side == Sell <==> ctx.SellCtx?)
  }

  /** `o` is what the venue once answered for `id`. */
  ghost predicate Earlier(b: Broker, id: OrderId, o: Order) {
    && id in b.orders
    && o.contract == b.orders[id].contract
    && o.side == b.orders[id].side
    && o.filled <= b.orders[id].filled
    && (!o.Open() ==> o == b.orders[id])
  }

  ghost predicate PendingNamed(b: Broker, pending: map<OrderId, Ctx>) {
    forall id :: id in pending ==> Names(b, id, pending[id])
  }

  ghost predicate PollNamed(b: Broker, poll: Poll) {
    poll.Polling? ==>
      && (forall k :: 0 <= k < |poll.todo| ==> Names(b, poll.todo[k].0, poll.todo[k].1))
      && (poll.at.Seen? ==> Names(b, poll.at.id, poll.at.ctx) && Earlier(b, poll.at.id, poll.at.order))
      && (poll.at.Opening? ==> Names(b, poll.at.id, poll.at.ctx) && poll.at.ctx.BuyCtx?)
  }

  ghost predicate NoOpenSell(b: Broker, c: Contract) {
    forall i :: b.OpenSell(i) ==> b.orders[i].contract != c
  }

  ghost predicate BuysOf(b: Broker, ids: set<OrderId>, c: Contract) {
    forall i :: i in ids ==> i in b.orders && b.orders[i].side == Buy && b.orders[i].contract == c
  }

  /** What a sell_option call for `c` may rely on at each of its program points. */
  ghost predicate SellCallOk(b: Broker, pending: map<OrderId, Ctx>, c: Contract, call: SellCall) {
    && BuysOf(b, call.canceled, c)
    && !SellPending(pending, c)
    && match call.at
       case Cancelling(todo) => BuysOf(b, todo, c) && NoOpenSell(b, c)
       case Sized(qty) => NoOpenSell(b, c) && 0 < qty <= b.Net(c)
       case SellSent(id) =>
         && id in b.orders && b.orders[id].side == Sell && b.orders[id].contract == c
         && (forall i :: b.OpenSell(i) && b.orders[i].contract == c ==> i == id)
  }

  ghost predicate SellsOk(b: Broker, pending: map<OrderId, Ctx>, sells: map<Contract, SellCall>) {
    forall c :: c in sells ==> SellCallOk(b, pending, c, sells[c])
  }

  ghost predicate BuyCallOk(b: Broker, call: BuyCall) {
    call.at.Sent? ==>
      call.at.id in b.orders && b.orders[call.at.id].side == Buy && b.orders[call.at.id].contract == call.contract
  }

  ghost predicate BuysOk(b: Broker, buys: map<nat, BuyCall>) {
    forall t :: t in buys ==> BuyCallOk(b, buys[t])
  }

  ghost predicate ReconOk(b: Broker, recon: Recon) {
    recon.Registering? ==> forall i :: i in recon.orders ==> Earlier(b, i, recon.orders[i])
  }

  /** Nothing is sold or bought before the first successful reconcile, and none runs after it. */
  ghost predicate PhasesOk(p: Proc) {
    && (p.reconciled ==> p.recon.NotRunning?)
    && (!p.reconciled ==> p.sells == map[] && p.buys == map[])
  }

  ghost predicate Watched(i: OrderId, c: Contract, pending: map<OrderId, Ctx>, sells: map<Contract, SellCall>, recon: Recon) {
    || i in pending
    || (c in sells && sells[c].at == SellSent(i))
    || (recon.Registering? && i in recon.orders)
  }

  /** Once reconciled (or while the venue's list of open orders is being re-registered), every open
      SELL is watched: pending, on its way to being registered, or still on that list. */
  ghost predicate AllWatched(b: Broker, pending: map<OrderId, Ctx>, sells: map<Contract, SellCall>, recon: Recon) {
    forall i :: b.OpenSell(i) ==> Watched(i, b.orders[i].contract, pending, sells, recon)
  }

  ghost predicate Inv(s: State) {
    && s.b.NeverShort()
    && PendingNamed(s.b, s.p.pending)
    && PollNamed(s.b, s.p.poll)
    && SellsOk(s.b, s.p.pending, s.p.sells)
    && BuysOk(s.b, s.p.buys)
    && ReconOk(s.b, s.p.recon)
    && PhasesOk(s.p)
    && (s.p.reconciled || s.p.recon.Registering? ==> AllWatched(s.b, s.p.pending, s.p.sells, s.p.recon))
  }

  // ----- steps at the venue

  /** From `b` to `b'` orders only move forward, and a contract loses position only through an open SELL. */
  ghost predicate Moved(b: Broker, b': Broker) {
    && b'.NeverShort()
    && (forall i :: i in b.orders ==> Earlier(b', i, b.orders[i]))
    && (forall i :: b'.OpenSell(i) ==> b.OpenSell(i))
    && (forall c :: b'.Net(c) < b.Net(c) ==> exists i :: b.OpenSell(i) && b.orders[i].contract == c)
  }

  lemma AdvanceMoves(b: Broker, id: OrderId, n: nat, avgPrice: real, status: OrderStatus)
    requires b.NeverShort()
    ensures Moved(b, b.Advance(id, n, avgPrice, status))
  {
    var b' := b.Advance(id, n, avgPrice, status);
    assert forall i :: b'.OpenSell(i) ==> b.OpenSell(i);
    if b' != b {
      var c := b.orders[id].contract;
      assert b.orders[id].side == Sell ==> b.OpenSell(id);
      assert forall d :: b'.Net(d) == if d != c then b.Net(d) else if b.orders[id].side == Buy then b.Net(c) + n else b.Net(c) - n;
      assert b.Net(c) >= 0;
    }
  }

  lemma CancelMoves(b: Broker, id: OrderId)
    requires b.NeverShort() && b.CanCancel(id)
    ensures Moved(b, b.Cancel(id))
  {
    var b' := b.Cancel(id);
    assert forall i :: b'.OpenSell(i) ==> b.OpenSell(i);
    assert forall c :: b'.Net(c) == b.Net(c);
  }

  lemma SubmitBuyMoves(b: Broker, id: OrderId, c: Contract, qty: nat)
    requires b.NeverShort() && id !in b.orders
    ensures Moved(b, b.Submit(id, c, Buy, qty))
  {
    var b' := b.Submit(id, c, Buy, qty);
    assert forall i :: b'.OpenSell(i) ==> b.OpenSell(i);
    assert forall d :: b'.Net(d) == b.Net(d);
  }

  lemma MoveKeepsSell(b: Broker, b': Broker, pending: map<OrderId, Ctx>, c: Contract, call: SellCall)
    requires Moved(b, b') && SellCallOk(b, pending, c, call)
    ensures SellCallOk(b', pending, c, call)
  {
    forall i | i in b.orders ensures Earlier(b', i, b.orders[i]) {}
    assert NoOpenSell(b, c) ==> NoOpenSell(b', c) && b'.Net(c) >= b.Net(c);
  }

  lemma MoveKeeps(s: State, b': Broker)
    requires Inv(s) && Moved(s.b, b')
    ensures Inv(s.(b := b'))
  {
    forall c | c in s.p.sells ensures SellCallOk(b', s.p.pending, c, s.p.sells[c]) {
      MoveKeepsSell(s.b, b', s.p.pending, c, s.p.sells[c]);
    }
  }

  lemma AdvanceKeeps(s: State, id: OrderId, n: nat, avgPrice: real, status: OrderStatus)
    requires Inv(s)
    ensures Inv(Apply(s, BrokerAdvance(id, n, avgPrice, status)))
  {
    AdvanceMoves(s.b, id, n, avgPrice, status);
    MoveKeeps(s, s.b.Advance(id, n, avgPrice, status));
  }

  lemma CrashKeeps(s: State)
    requires Inv(s)
    ensures Inv(Apply(s, Crash))
  {
  }

  // ----- the poll

  /** Entries may leave the pending map, or change as entries of the same order, as long as those of
      open SELLs stay. */
  ghost predicate PendingShrinks(b: Broker, pending: map<OrderId, Ctx>, pending': map<OrderId, Ctx>) {
    && (forall i :: i in pending' ==> i in pending && pending'[i].contract == pending[i].contract && pending'[i].SellCtx? == pending[i].SellCtx?)
    && (forall i :: i in pending && b.OpenSell(i) ==> i in pending')
  }

  lemma ShrinkKeeps(s: State, p': Proc)
    requires Inv(s)
    requires p' == s.p.(positions := p'.positions, pending := p'.pending, poll := p'.poll)
    requires PendingShrinks(s.b, s.p.pending, p'.pending) && PollNamed(s.b, p'.poll)
    ensures Inv(s.(p := p'))
  {
    forall i | i in p'.pending ensures Names(s.b, i, p'.pending[i]) {
      assert Names(s.b, i, s.p.pending[i]);
    }
    forall c | c in s.p.sells ensures SellCallOk(s.b, p'.pending, c, s.p.sells[c]) {
      assert SellCallOk(s.b, s.p.pending, c, s.p.sells[c]);
    }
  }

  lemma PollReadKeeps(s: State, ok: bool)
    requires Inv(s)
    ensures Inv(Apply(s, PollRead(ok)))
  {
    if s.p.poll.Polling? && s.p.poll.at.Ready? && s.p.poll.todo != [] {
      assert Names(s.b, s.p.poll.todo[0].0, s.p.poll.todo[0].1);
    }
    ShrinkKeeps(s, PollReadStep(s.b, s.p, ok));
  }

  lemma SettleSellKeeps(s: State, id: OrderId, ctx: Ctx, o: Order)
    requires s.p.poll.Polling? && PollNamed(s.b, s.p.poll) && ctx.SellCtx?
    requires Names(s.b, id, ctx) && Earlier(s.b, id, o)
    ensures Settled(s, SettleSell(s.p, id, ctx, o))
  {
  }

  lemma SettleBuyKeeps(s: State, id: OrderId, ctx: Ctx, o: Order)
    requires s.p.poll.Polling? && PollNamed(s.b, s.p.poll) && ctx.BuyCtx?
    requires Names(s.b, id, ctx) && PendingNamed(s.b, s.p.pending)
    ensures Settled(s, SettleBuy(s.p, id, ctx, o))
  {
    assert id in s.p.pending ==> Names(s.b, id, s.p.pending[id]);
  }

  ghost predicate Settled(s: State, p': Proc) {
    && p' == s.p.(positions := p'.positions, pending := p'.pending, poll := p'.poll)
    && PendingShrinks(s.b, s.p.pending, p'.pending)
    && PollNamed(s.b, p'.poll)
  }

  lemma PollQuietKeeps(s: State, st: Step)
    requires Inv(s)
    requires st.PollBegin? || st.PollRecheck? || st.PollStore?
    ensures Inv(Apply(s, st))
  {
    var t := Apply(s, st);
    assert t.p == s.p.(poll := t.p.poll, events := t.p.events, inserts := t.p.inserts) && PollNamed(s.b, t.p.poll);
  }

  lemma PollCommitKeeps(s: State)
    requires Inv(s)
    ensures Inv(Apply(s, PollCommit))
  {
    if s.p.poll.Polling? && s.p.poll.at.Seen? {
      var Seen(id, ctx, o) := s.p.poll.at;
      if ctx.SellCtx? { SettleSellKeeps(s, id, ctx, o); } else { SettleBuyKeeps(s, id, ctx, o); }
      ShrinkKeeps(s, PollCommitStep(s.p));
    }
  }

  // ----- sell_option

  /** Only the call for `c` changes, and it was not yet holding a SELL of its own. */
  lemma SellsUpdateKeeps(s: State, c: Contract, sells': map<Contract, SellCall>)
    requires Inv(s) && s.p.reconciled
    requires c in s.p.sells ==> !s.p.sells[c].at.SellSent?
    requires forall d :: d != c ==> (d in sells' <==> d in s.p.sells) && (d in sells' ==> sells'[d] == s.p.sells[d])
    requires c in sells' ==> SellCallOk(s.b, s.p.pending, c, sells'[c])
    ensures Inv(s.(p := s.p.(sells := sells')))
  {
    forall d | d in sells' ensures SellCallOk(s.b, s.p.pending, d, sells'[d]) {
      assert d != c ==> SellCallOk(s.b, s.p.pending, d, s.p.sells[d]);
    }
    forall i | s.b.OpenSell(i) ensures Watched(i, s.b.orders[i].contract, s.p.pending, sells', s.p.recon) {
      assert Watched(i, s.b.orders[i].contract, s.p.pending, s.p.sells, s.p.recon);
    }
  }

  lemma SellBeginKeeps(s: State, c: Contract, reason: string)
    requires Inv(s)
    ensures Inv(Apply(s, SellBegin(c, reason)))
  {
    if MaySell(s.p, c) && !SellPending(s.p.pending, c) {
      var p' := SellBeginStep(s.p, c, reason);
      forall i | s.b.OpenSell(i) ensures s.b.orders[i].contract != c {
        assert Watched(i, s.b.orders[i].contract, s.p.pending, s.p.sells, s.p.recon);
        assert i in s.p.pending ==> Names(s.b, i, s.p.pending[i]);
      }
      forall i | i in BuysPending(s.p.pending, c) ensures i in s.b.orders && s.b.orders[i].side == Buy && s.b.orders[i].contract == c {
        assert Names(s.b, i, s.p.pending[i]);
      }
      SellsUpdateKeeps(s, c, p'.sells);
    }
  }

  lemma CancelledCallOk(b: Broker, pending: map<OrderId, Ctx>, c: Contract, call: SellCall, id: OrderId)
    requires SellCallOk(b, pending, c, call) && call.at.Cancelling? && id in call.at.todo
    ensures var next := call.(at := Cancelling(call.at.todo - {id}));
      SellCallOk(b, pending, c, next) && SellCallOk(b, pending, c, next.(canceled := call.canceled + {id}))
  {
  }

  lemma SellCancelKeeps(s: State, c: Contract, id: OrderId, ok: bool)
    requires Inv(s)
    ensures Inv(Apply(s, SellCancel(c, id, ok)))
  {
    if c in s.p.sells && s.p.sells[c].at.Cancelling? && id in s.p.sells[c].at.todo {
      var call := s.p.sells[c];
      var next := call.(at := Cancelling(call.at.todo - {id}));
      CancelledCallOk(s.b, s.p.pending, c, call, id);
      if ok && s.b.CanCancel(id) {
        var b' := s.b.Cancel(id);
        CancelMoves(s.b, id);
        MoveKeeps(s, b');
        MoveKeepsSell(s.b, b', s.p.pending, c, next.(canceled := call.canceled + {id}));
        SellsUpdateKeeps(s.(b := b'), c, s.p.sells[c := next.(canceled := call.canceled + {id})]);
      } else {
        SellsUpdateKeeps(s, c, s.p.sells[c := next]);
      }
    }
  }

  lemma SellSizeKeeps(s: State, c: Contract, ok: bool)
    requires Inv(s)
    ensures Inv(Apply(s, SellSize(c, ok)))
  {
    if c in s.p.sells && s.p.sells[c].at == Cancelling({}) {
      var p' := SellSizeStep(s.b, s.p, c, ok);
      assert SellCallOk(s.b, s.p.pending, c, s.p.sells[c]);
      SellsUpdateKeeps(s, c, p'.sells);
      if ok && s.b.Net(c) <= 0 {
        forall i | i in s.p.pending && s.b.OpenSell(i) ensures i in p'.pending {
          assert Names(s.b, i, s.p.pending[i]);
        }
        ShrinkKeeps(s.(p := s.p.(sells := p'.sells)), p');
      }
    }
  }

  lemma SubmitSellKeeps(b: Broker, id: OrderId, c: Contract, qty: nat)
    requires b.NeverShort() && id !in b.orders && NoOpenSell(b, c) && qty <= b.Net(c)
    ensures b.Submit(id, c, Sell, qty).NeverShort()
    ensures forall i :: b.Submit(id, c, Sell, qty).OpenSell(i) <==> b.OpenSell(i) || i == id
  {
    var b' := b.Submit(id, c, Sell, qty);
    assert forall i :: b'.OpenSell(i) <==> b.OpenSell(i) || i == id;
    assert forall d :: b'.Net(d) == b.Net(d);
  }

  lemma SubmitSellKeepsCall(b: Broker, pending: map<OrderId, Ctx>, id: OrderId, c: Contract, qty: nat, d: Contract, call: SellCall)
    requires id !in b.orders && d != c && SellCallOk(b, pending, d, call)
    ensures SellCallOk(b.Submit(id, c, Sell, qty), pending, d, call)
  {
    var b' := b.Submit(id, c, Sell, qty);
    assert forall i :: b'.OpenSell(i) <==> b.OpenSell(i) || i == id;
    assert b'.Net(d) == b.Net(d);
  }

  lemma SellAcceptedKeeps(s: State, c: Contract, id: OrderId)
    requires Inv(s)
    requires c in s.p.sells && s.p.sells[c].at.Sized? && id !in s.b.orders
    ensures Inv(Apply(s, SellSubmit(c, id, true)))
  {
    var t := SellSubmitStep(s, c, id, true);
    assert SellCallOk(s.b, s.p.pending, c, s.p.sells[c]);
    SubmitSellKeeps(s.b, id, c, s.p.sells[c].at.qty);
    forall i | i in s.p.pending ensures Names(t.b, i, s.p.pending[i]) {
      assert Names(s.b, i, s.p.pending[i]);
    }
    forall d | d in t.p.sells ensures SellCallOk(t.b, s.p.pending, d, t.p.sells[d]) {
      if d != c {
        SubmitSellKeepsCall(s.b, s.p.pending, id, c, s.p.sells[c].at.qty, d, s.p.sells[d]);
      }
    }
    forall i | t.b.OpenSell(i) ensures Watched(i, t.b.orders[i].contract, t.p.pending, t.p.sells, t.p.recon) {
      assert i != id ==> Watched(i, s.b.orders[i].contract, s.p.pending, s.p.sells, s.p.recon);
    }
    forall b | b in s.p.buys ensures BuyCallOk(t.b, s.p.buys[b]) {
      assert BuyCallOk(s.b, s.p.buys[b]);
    }
  }

  lemma SellSubmitKeeps(s: State, c: Contract, id: OrderId)
    requires Inv(s)
    ensures Inv(Apply(s, SellSubmit(c, id, true)))
  {
    if c in s.p.sells && s.p.sells[c].at.Sized? && id !in s.b.orders {
      SellAcceptedKeeps(s, c, id);
    }
  }

  lemma SellRefusedKeeps(s: State, c: Contract, id: OrderId)
    requires Inv(s)
    ensures Inv(Apply(s, SellSubmit(c, id, false)))
  {
    if c in s.p.sells && s.p.sells[c].at.Sized? {
      SellsUpdateKeeps(s, c, SellSubmitStep(s, c, id, false).p.sells);
    }
  }

  lemma SellRegisterKeeps(s: State, c: Contract)
    requires Inv(s)
    ensures Inv(Apply(s, SellRegister(c)))
  {
    var p' := SellRegisterStep(s.p, c);
    if c in s.p.sells && s.p.sells[c].at.SellSent? {
      var call := s.p.sells[c];
      assert SellCallOk(s.b, s.p.pending, c, call);
      forall i | i in p'.pending ensures Names(s.b, i, p'.pending[i]) {
        assert i != call.at.id ==> Names(s.b, i, s.p.pending[i]);
      }
      forall d | d in p'.sells ensures SellCallOk(s.b, p'.pending, d, p'.sells[d]) {
        assert SellCallOk(s.b, s.p.pending, d, s.p.sells[d]);
      }
      forall i | s.b.OpenSell(i) ensures Watched(i, s.b.orders[i].contract, p'.pending, p'.sells, p'.recon) {
        assert Watched(i, s.b.orders[i].contract, s.p.pending, s.p.sells, s.p.recon);
      }
    }
  }

  // ----- buy_option

  lemma BuysUpdateKeeps(s: State, tid: nat, buys': map<nat, BuyCall>)
    requires Inv(s) && s.p.reconciled
    requires forall d :: d in buys' ==> d == tid || (d in s.p.buys && buys'[d] == s.p.buys[d])
    requires tid in buys' ==> BuyCallOk(s.b, buys'[tid])
    ensures Inv(s.(p := s.p.(buys := buys')))
  {
    forall d | d in buys' ensures BuyCallOk(s.b, buys'[d]) {
      assert d != tid ==> BuyCallOk(s.b, s.p.buys[d]);
    }
  }

  lemma BuyMovesOn(s: State, tid: nat, at: BuyPoint)
    requires Inv(s) && tid in s.p.buys && !at.Sent?
    ensures Inv(s.(p := s.p.(buys := s.p.buys[tid := s.p.buys[tid].(at := at)])))
    ensures Inv(s.(p := s.p.(buys := s.p.buys - {tid})))
  {
    BuysUpdateKeeps(s, tid, s.p.buys[tid := s.p.buys[tid].(at := at)]);
    BuysUpdateKeeps(s, tid, s.p.buys - {tid});
  }

  lemma BuyAdmitKeeps(s: State, tid: nat, c: Contract, terms: Terms, qty: nat)
    requires Inv(s)
    ensures Inv(Apply(s, BuyAdmit(tid, c, terms, qty)))
  {
    if s.p.reconciled && tid !in s.p.buys {
      BuysUpdateKeeps(s, tid, BuyAdmitStep(s.p, tid, c, terms, qty).buys);
    }
  }

  lemma BuyCheckMemoryKeeps(s: State, tid: nat)
    requires Inv(s)
    ensures Inv(Apply(s, BuyCheckMemory(tid)))
  {
    if tid in s.p.buys && s.p.buys[tid].at.Admitted? {
      BuyMovesOn(s, tid, MemoryChecked);
    }
  }

  lemma BuyCheckBrokerKeeps(s: State, tid: nat, ok: bool)
    requires Inv(s)
    ensures Inv(Apply(s, BuyCheckBroker(tid, ok)))
  {
    if tid in s.p.buys && s.p.buys[tid].at.MemoryChecked? {
      BuyMovesOn(s, tid, Cleared);
    }
  }

  lemma BuyGiveUpKeeps(s: State, tid: nat)
    requires Inv(s)
    ensures Inv(Apply(s, BuyGiveUp(tid)))
  {
    if tid in s.p.buys && !s.p.buys[tid].at.Sent? {
      BuysUpdateKeeps(s, tid, BuyGiveUpStep(s.p, tid).buys);
    }
  }

  lemma BuySubmitKeeps(s: State, tid: nat, id: OrderId)
    requires Inv(s)
    ensures Inv(Apply(s, BuySubmit(tid, id)))
  {
    if tid in s.p.buys && s.p.buys[tid].at.Cleared? && id !in s.b.orders {
      var call := s.p.buys[tid];
      SubmitBuyMoves(s.b, id, call.contract, call.qty);
      MoveKeeps(s, s.b.Submit(id, call.contract, Buy, call.qty));
      BuysUpdateKeeps(s.(b := s.b.Submit(id, call.contract, Buy, call.qty)), tid, s.p.buys[tid := call.(at := Sent(id))]);
    }
  }

  lemma BuyRegisterKeeps(s: State, tid: nat)
    requires Inv(s)
    ensures Inv(Apply(s, BuyRegister(tid)))
  {
    var p' := BuyRegisterStep(s.p, tid);
    if tid in s.p.buys && s.p.buys[tid].at.Sent? {
      var id := s.p.buys[tid].at.id;
      assert BuyCallOk(s.b, s.p.buys[tid]);
      forall d | d in s.p.sells ensures SellCallOk(s.b, p'.pending, d, s.p.sells[d]) {
        assert SellCallOk(s.b, s.p.pending, d, s.p.sells[d]);
      }
      forall i | s.b.OpenSell(i) ensures Watched(i, s.b.orders[i].contract, p'.pending, s.p.sells, s.p.recon) {
        assert Watched(i, s.b.orders[i].contract, s.p.pending, s.p.sells, s.p.recon);
      }
    }
  }

  // ----- reconcile_tracked_state_once

  lemma ReconReadKeeps(s: State, st: Step)
    requires Inv(s)
    requires st.ReconBegin? || st.ReconRows? || st.ReconRestore?
    ensures Inv(Apply(s, st))
  {
    var p' := Apply(s, st).p;
    assert p' == s.p || (p' == s.p.(positions := p'.positions, recon := p'.recon) && !s.p.reconciled && !p'.recon.Registering?);
  }

  lemma ReconOrdersKeeps(s: State, ok: bool)
    requires Inv(s)
    ensures Inv(Apply(s, ReconOrders(ok)))
  {
    var p' := ReconOrdersStep(s.b, s.p, ok);
    if p'.recon.Registering? && p' != s.p {
      assert p'.recon.orders == OpenOrders(s.b);
    }
  }

  lemma ReconRegisterNames(b: Broker, p: Proc, id: OrderId, parsed: Option<Terms>)
    requires p.recon.Registering? && id in p.recon.orders && Earlier(b, id, p.recon.orders[id]) && PendingNamed(b, p.pending)
    ensures PendingNamed(b, ReconRegisterStep(p, id, parsed).pending)
  {
    var p' := ReconRegisterStep(p, id, parsed);
    forall i | i in p'.pending ensures Names(b, i, p'.pending[i]) {
      assert i in p.pending ==> Names(b, i, p.pending[i]);
    }
  }

  lemma ReconRegisterWatches(b: Broker, p: Proc, id: OrderId, parsed: Option<Terms>)
    requires p.recon.Registering? && id in p.recon.orders && Earlier(b, id, p.recon.orders[id])
    requires AllWatched(b, p.pending, p.sells, p.recon)
    ensures var p' := ReconRegisterStep(p, id, parsed); AllWatched(b, p'.pending, p'.sells, p'.recon)
  {
    var p' := ReconRegisterStep(p, id, parsed);
    forall i | b.OpenSell(i) ensures Watched(i, b.orders[i].contract, p'.pending, p'.sells, p'.recon) {
      assert Watched(i, b.orders[i].contract, p.pending, p.sells, p.recon);
    }
  }

  lemma ReconRegisterKeeps(s: State, id: OrderId, parsed: Option<Terms>)
    requires Inv(s)
    ensures Inv(Apply(s, ReconRegister(id, parsed)))
  {
    if s.p.recon.Registering? && id in s.p.recon.orders {
      ReconRegisterNames(s.b, s.p, id, parsed);
      ReconRegisterWatches(s.b, s.p, id, parsed);
    }
  }

  lemma ReconFinishKeeps(s: State)
    requires Inv(s)
    ensures Inv(Apply(s, ReconFinish))
  {
    var p' := ReconFinishStep(s.p);
    if s.p.recon.Registering? && s.p.recon.orders == map[] {
      forall i | s.b.OpenSell(i) ensures Watched(i, s.b.orders[i].contract, p'.pending, p'.sells, p'.recon) {
        assert Watched(i, s.b.orders[i].contract, s.p.pending, s.p.sells, s.p.recon);
      }
    }
  }

  // ----- every run

  lemma StepKeeps(s: State, st: Step)
    requires Inv(s)
    ensures Inv(Apply(s, st))
  {
    match st
    case BrokerAdvance(id, n, avgPrice, status) => AdvanceKeeps(s, id, n, avgPrice, status);
    case Crash => CrashKeeps(s);
    case PollBegin(ids) => PollQuietKeeps(s, st);
    case PollRead(ok) => PollReadKeeps(s, ok);
    case PollCommit => PollCommitKeeps(s);
    case PollRecheck => PollQuietKeeps(s, st);
    case PollStore(_) => PollQuietKeeps(s, st);
    case BuyAdmit(tid, c, terms, qty) => BuyAdmitKeeps(s, tid, c, terms, qty);
    case BuyCheckMemory(tid) => BuyCheckMemoryKeeps(s, tid);
    case BuyCheckBroker(tid, ok) => BuyCheckBrokerKeeps(s, tid, ok);
    case BuyGiveUp(tid) => BuyGiveUpKeeps(s, tid);
    case BuySubmit(tid, id) => BuySubmitKeeps(s, tid, id);
    case BuyRegister(tid) => BuyRegisterKeeps(s, tid);
    case SellBegin(c, reason) => SellBeginKeeps(s, c, reason);
    case SellCancel(c, id, ok) => SellCancelKeeps(s, c, id, ok);
    case SellSize(c, ok) => SellSizeKeeps(s, c, ok);
    case SellSubmit(c, id, ok) => if ok { SellSubmitKeeps(s, c, id); } else { SellRefusedKeeps(s, c, id); }
    case SellRegister(c) => SellRegisterKeeps(s, c);
    case ReconBegin => ReconReadKeeps(s, st);
    case ReconRows(_) => ReconReadKeeps(s, st);
    case ReconRestore(_, _) => ReconReadKeeps(s, st);
    case ReconOrders(ok) => ReconOrdersKeeps(s, ok);
    case ReconRegister(id, parsed) => ReconRegisterKeeps(s, id, parsed);
    case ReconFinish => ReconFinishKeeps(s);
  }

  lemma {:induction false} RunKeeps(s: State, steps: seq<Step>)
    requires Inv(s)
    ensures Inv(Run(s, steps))
    decreases |steps|
  {
    if steps != [] {
      StepKeeps(s, steps[0]);
      RunKeeps(Apply(s, steps[0]), steps[1..]);
    }
  }

  /** The main result. From any venue that is not short, with a process that has just started, every
      run (crashes and restarts included) stays never short; and whenever the process is reconciled,
      each open SELL is in the pending map or in the hands of the sell_option call that sent it. */
  lemma NeverShortOverRuns(b: Broker, rows: seq<Row>, steps: seq<Step>)
    requires b.NeverShort()
    ensures var t := Run(State(b, FRESH, rows), steps);
      && t.b.NeverShort()
      && (t.p.reconciled ==> forall i :: t.b.OpenSell(i) ==>
            || (i in t.p.pending && t.p.pending[i].SellCtx? && t.p.pending[i].contract == t.b.orders[i].contract)
            || (t.b.orders[i].contract in t.p.sells && t.p.sells[t.b.orders[i].contract].at == SellSent(i)))
  {
    RunKeeps(State(b, FRESH, rows), steps);
    var t := Run(State(b, FRESH, rows), steps);
    forall i | t.p.reconciled && t.b.OpenSell(i) ensures
      || (i in t.p.pending && t.p.pending[i].SellCtx? && t.p.pending[i].contract == t.b.orders[i].contract)
      || (t.b.orders[i].contract in t.p.sells && t.p.sells[t.b.orders[i].contract].at == SellSent(i))
    {
      assert Watched(i, t.b.orders[i].contract, t.p.pending, t.p.sells, t.p.recon);
      assert i in t.p.pending ==> Names(t.b, i, t.p.pending[i]);
    }
  }

  /** Until its first successful reconcile a process submits nothing: the venue knows no order it did
      not know before the process started. */
  lemma {:induction false} NothingSubmittedUnreconciled(s: State, steps: seq<Step>)
    requires Inv(s) && !s.p.reconciled
    requires forall k :: 0 <= k < |steps| ==> !Run(s, steps[..k]).p.reconciled
    ensures Run(s, steps).b.orders.Keys == s.b.orders.Keys
    decreases |steps|
  {
    if steps != [] {
      var t := Apply(s, steps[0]);
      assert steps[..0] == [] && Run(s, steps[..0]) == s;
      StepKeeps(s, steps[0]);
      UnreconciledSubmitsNothing(s, steps[0]);
      if |steps| > 1 {
        assert steps[..1] == [steps[0]];
        assert Run(t, []) == t && steps[..1][1..] == [];
        assert !t.p.reconciled;
        forall k | 0 <= k < |steps[1..]| ensures !Run(t, steps[1..][..k]).p.reconciled {
          assert steps[..k + 1][1..] == steps[1..][..k];
        }
        NothingSubmittedUnreconciled(t, steps[1..]);
      } else {
        assert steps[1..] == [];
      }
    }
  }

  lemma IdleSellersSubmitNothing(s: State, st: Step)
    requires s.p.sells == map[] && IsSellStep(st)
    ensures Apply(s, st).b == s.b
  {
  }

  lemma UnreconciledSubmitsNothing(s: State, st: Step)
    requires PhasesOk(s.p) && !s.p.reconciled
    ensures Apply(s, st).b.orders.Keys == s.b.orders.Keys
  {
    assert s.p.buys == map[] && s.p.sells == map[];
    if IsSellStep(st) {
      IdleSellersSubmitNothing(s, st);
    }
  }
}
