/** Within one process life each option order yields at most one fill or terminal event and each BUY
    at most one row insert, and an order that has left the pending map never acts again. */
module ExactlyOnce {
  import opened Wrappers
  import opened OptionBroker
  import opened OptionProtocol
  import opened NeverShort

  function EventIds(events: seq<Event>): set<OrderId> {
    set e | e in events :: e.id
  }

  ghost predicate DistinctEvents(events: seq<Event>) {
    forall k, l :: 0 <= k < l < |events| ==> events[k].id != events[l].id
  }

  ghost predicate DistinctIds(ids: seq<OrderId>) {
    forall k, l :: 0 <= k < l < |ids| ==> ids[k] != ids[l]
  }

  /** An order already reported is a BUY that goes on filling: later polls only update its row. */
  ghost predicate Told(told: set<OrderId>, b: Broker, id: OrderId, ctx: Ctx) {
    id in told ==> ctx.BuyCtx? && ctx.rowOpened && id in b.orders && b.orders[id].filled > 0
  }

  ghost predicate PendingTold(told: set<OrderId>, b: Broker, pending: map<OrderId, Ctx>) {
    forall id :: id in pending ==> Told(told, b, id, pending[id])
  }

  /** `id` is about to be reported for the first time; if it stays pending its row counts as opened. */
  ghost predicate AboutToTell(told: set<OrderId>, b: Broker, pending: map<OrderId, Ctx>, id: OrderId) {
    && id !in told && id in b.orders
    && (id in pending ==> Told({id}, b, id, pending[id]))
  }

  function PointId(at: PollPoint): Option<OrderId> {
    match at
    case Ready => None
    case Seen(id, _, _) => Some(id)
    case Opening(id, _, _, _) => Some(id)
    case Storing(_, event) => if event.Some? then Some(event.value.id) else None
  }

  ghost predicate PointTold(told: set<OrderId>, b: Broker, pending: map<OrderId, Ctx>, at: PollPoint) {
    match at
    case Ready => true
    case Seen(id, ctx, o) => Told(told, b, id, ctx) && (id in told ==> o.filled > 0)
    case Opening(id, _, _, _) => AboutToTell(told, b, pending, id)
    case Storing(op, event) =>
      && (event.Some? ==> AboutToTell(told, b, pending, event.value.id))
      && (op.Some? && op.value.OpenRow? ==> event.Some? && event.value.id == op.value.id)
  }

  ghost predicate TodoTold(told: set<OrderId>, b: Broker, todo: seq<(OrderId, Ctx)>, current: Option<OrderId>) {
    && (forall k, l :: 0 <= k < l < |todo| ==> todo[k].0 != todo[l].0)
    && (forall k :: 0 <= k < |todo| ==> Told(told, b, todo[k].0, todo[k].1) && current != Some(todo[k].0))
  }

  ghost predicate PollTold(told: set<OrderId>, b: Broker, pending: map<OrderId, Ctx>, poll: Poll) {
    poll.Polling? ==> TodoTold(told, b, poll.todo, PointId(poll.at)) && PointTold(told, b, pending, poll.at)
  }

  ghost predicate Polled(poll: Poll, id: OrderId) {
    poll.Polling? && (PointId(poll.at) == Some(id) || exists k :: 0 <= k < |poll.todo| && poll.todo[k].0 == id)
  }

  /** The process has met `id` outside the call that is still registering it. */
  ghost predicate Met(told: set<OrderId>, pending: map<OrderId, Ctx>, poll: Poll, id: OrderId) {
    id in told || id in pending || Polled(poll, id)
  }

  ghost predicate SentUnmet(p: Proc) {
    && (forall t :: t in p.buys && p.buys[t].at.Sent? ==> !Met(EventIds(p.events), p.pending, p.poll, p.buys[t].at.id))
    && (forall c :: c in p.sells && p.sells[c].at.SellSent? ==> !Met(EventIds(p.events), p.pending, p.poll, p.sells[c].at.id))
    && (p.recon.Registering? ==> forall i :: i in p.recon.orders ==> !Met(EventIds(p.events), p.pending, p.poll, i))
    && (forall t, u :: t in p.buys && u in p.buys && p.buys[t].at.Sent? && p.buys[t].at == p.buys[u].at ==> t == u)
  }

  ghost predicate MetKnown(b: Broker, p: Proc) {
    forall id :: Met(EventIds(p.events), p.pending, p.poll, id) ==> id in b.orders
  }

  /** Before the list of open orders is fetched there is nothing to poll. */
  ghost predicate EmptyBeforeRecon(p: Proc) {
    !p.reconciled && !p.recon.Registering? ==>
      && p.pending == map[] && p.events == []
      && (p.poll.Polling? ==> p.poll.todo == [] && p.poll.at.Ready?)
  }

  ghost predicate OnceInv(s: State) {
    && DistinctEvents(s.p.events)
    && DistinctIds(s.p.inserts)
    && (forall id :: id in s.p.inserts ==> id in EventIds(s.p.events))
    && PendingTold(EventIds(s.p.events), s.b, s.p.pending)
    && PollTold(EventIds(s.p.events), s.b, s.p.pending, s.p.poll)
    && SentUnmet(s.p)
    && MetKnown(s.b, s.p)
    && EmptyBeforeRecon(s.p)
  }

  // ----- steps that report nothing

  /** The venue moves forward under the process. */
  lemma VenueKeepsOnce(s: State, b': Broker)
    requires OnceInv(s)
    requires forall i :: i in s.b.orders ==> i in b'.orders && b'.orders[i].filled >= s.b.orders[i].filled
    ensures OnceInv(s.(b := b'))
  {
    var told := EventIds(s.p.events);
    forall id | id in s.p.pending ensures Told(told, b', id, s.p.pending[id]) {
      assert Told(told, s.b, id, s.p.pending[id]);
    }
    if s.p.poll.Polling? {
      assert PointTold(told, b', s.p.pending, s.p.poll.at);
      forall k | 0 <= k < |s.p.poll.todo| ensures Told(told, b', s.p.poll.todo[k].0, s.p.poll.todo[k].1) {
        assert Told(told, s.b, s.p.poll.todo[k].0, s.p.poll.todo[k].1);
      }
    }
  }

  lemma AdvanceKeepsOnce(s: State, id: OrderId, n: nat, avgPrice: real, status: OrderStatus)
    requires OnceInv(s)
    ensures OnceInv(Apply(s, BrokerAdvance(id, n, avgPrice, status)))
  {
    VenueKeepsOnce(s, s.b.Advance(id, n, avgPrice, status));
  }

  /** Only the calls change, and an order they newly hold was never met. */
  lemma CallsKeepOnce(s: State, p': Proc)
    requires OnceInv(s) && SentUnmet(p')
    requires p' == s.p.(positions := p'.positions, buys := p'.buys, sells := p'.sells)
    ensures OnceInv(s.(p := p'))
  {
  }

  lemma MeetsNoMore(b: Broker, p: Proc, p': Proc)
    requires SentUnmet(p) && MetKnown(b, p)
    requires p'.buys == p.buys && p'.sells == p.sells && p'.recon == p.recon
    requires forall id :: Met(EventIds(p'.events), p'.pending, p'.poll, id) ==> Met(EventIds(p.events), p.pending, p.poll, id)
    ensures SentUnmet(p') && MetKnown(b, p')
  {
  }

  /** The poll moves on without reporting: it and the pending map meet no new order. */
  lemma PollKeepsOnce(s: State, p': Proc)
    requires OnceInv(s)
    requires p' == s.p.(positions := p'.positions, pending := p'.pending, poll := p'.poll)
    requires forall id :: (id in p'.pending || Polled(p'.poll, id)) ==> Met(EventIds(s.p.events), s.p.pending, s.p.poll, id)
    requires PendingTold(EventIds(s.p.events), s.b, p'.pending) && PollTold(EventIds(s.p.events), s.b, p'.pending, p'.poll)
    requires EmptyBeforeRecon(p')
    ensures OnceInv(s.(p := p'))
  {
    MeetsNoMore(s.b, s.p, p');
  }

  lemma PollBeginKeepsOnce(s: State, ids: seq<OrderId>)
    requires OnceInv(s)
    ensures OnceInv(Apply(s, PollBegin(ids)))
  {
    var p' := PollBeginStep(s.p, ids);
    if s.p.poll.Idle? && (forall id <- ids :: id in s.p.pending) && (forall i, j :: 0 <= i < j < |ids| ==> ids[i] != ids[j]) {
      assert |p'.poll.todo| == |ids|;
      forall k | 0 <= k < |ids| ensures ids[k] in s.p.pending && p'.poll.todo[k] == (ids[k], s.p.pending[ids[k]]) {
        assert ids[k] in s.p.pending;
      }
      if ids == [] {
        assert p'.poll.todo == [];
      } else {
        assert ids[0] in s.p.pending;
      }
      PollKeepsOnce(s, p');
    }
  }

  lemma TodoTail(told: set<OrderId>, b: Broker, todo: seq<(OrderId, Ctx)>, poll: Poll)
    requires TodoTold(told, b, todo, None) && todo != []
    requires poll.Polling? && poll.todo == todo[1..]
    requires PointId(poll.at) == None || PointId(poll.at) == Some(todo[0].0)
    ensures TodoTold(told, b, poll.todo, PointId(poll.at)) && Told(told, b, todo[0].0, todo[0].1)
    ensures forall i :: Polled(poll, i) ==> Polled(Polling(todo, Ready), i)
  {
    forall i | Polled(poll, i) ensures Polled(Polling(todo, Ready), i) {
      if k :| 0 <= k < |poll.todo| && poll.todo[k].0 == i {
        assert todo[k + 1].0 == i;
      } else {
        assert todo[0].0 == i;
      }
    }
  }

  /** The poll takes the head of its snapshot: it drops it, or holds what the venue answered for it. */
  ghost predicate TakesHead(b: Broker, p: Proc, p': Proc)
    requires p.poll.Polling? && p.poll.todo != []
  {
    var (id, ctx) := p.poll.todo[0];
    && p' == p.(pending := p'.pending, poll := p'.poll)
    && p'.poll.Polling? && p'.poll.todo == p.poll.todo[1..]
    && (p'.poll.at.Ready? || (id in b.orders && p'.poll.at == Seen(id, ctx, b.orders[id])))
    && (p'.pending == p.pending || p'.pending == p.pending - {id})
  }

  lemma ReadTakesHead(b: Broker, p: Proc, ok: bool)
    requires p.poll.Polling? && p.poll.at.Ready? && p.poll.todo != []
    ensures TakesHead(b, p, PollReadStep(b, p, ok))
  {
  }

  lemma TakesHeadKeepsOnce(s: State, p': Proc)
    requires OnceInv(s) && s.p.poll.Polling? && s.p.poll.at.Ready? && s.p.poll.todo != []
    requires TakesHead(s.b, s.p, p')
    ensures OnceInv(s.(p := p'))
  {
    TodoTail(EventIds(s.p.events), s.b, s.p.poll.todo, p'.poll);
    PollKeepsOnce(s, p');
  }

  lemma PollEndKeepsOnce(s: State)
    requires OnceInv(s)
    ensures OnceInv(s.(p := s.p.(poll := Idle)))
  {
    PollKeepsOnce(s, s.p.(poll := Idle));
  }

  lemma PollReadKeepsOnce(s: State, ok: bool)
    requires OnceInv(s)
    ensures OnceInv(Apply(s, PollRead(ok)))
  {
    if s.p.poll.Polling? && s.p.poll.at.Ready? {
      if s.p.poll.todo == [] {
        PollEndKeepsOnce(s);
      } else {
        ReadTakesHead(s.b, s.p, ok);
        TakesHeadKeepsOnce(s, PollReadStep(s.b, s.p, ok));
      }
    }
  }

  lemma SettleSellTold(p: Proc, b: Broker, told: set<OrderId>, id: OrderId, ctx: Ctx, o: Order)
    requires p.poll.Polling? && ctx.SellCtx? && id in b.orders
    requires PendingTold(told, b, p.pending) && Told(told, b, id, ctx)
    ensures var p' := SettleSell(p, id, ctx, o);
      PendingTold(told, b, p'.pending) && PointTold(told, b, p'.pending, p'.poll.at)
  {
    assert id !in told;
    var p' := SettleSell(p, id, ctx, o);
    assert p'.pending == p.pending || p'.pending == p.pending - {id};
    assert PendingTold(told, b, p'.pending);
  }

  lemma SettleBuyTold(p: Proc, b: Broker, told: set<OrderId>, id: OrderId, ctx: Ctx, o: Order)
    requires p.poll.Polling? && ctx.BuyCtx? && id in b.orders && o.filled <= b.orders[id].filled
    requires PendingTold(told, b, p.pending) && Told(told, b, id, ctx) && (id in told ==> o.filled > 0)
    ensures var p' := SettleBuy(p, id, ctx, o);
      PendingTold(told, b, p'.pending) && PointTold(told, b, p'.pending, p'.poll.at)
  {
    var p' := SettleBuy(p, id, ctx, o);
    forall i | i in p'.pending ensures Told(told, b, i, p'.pending[i]) {
      assert i != id ==> Told(told, b, i, p.pending[i]);
    }
  }

  ghost predicate MeetsSame(p: Proc, p': Proc, id: OrderId) {
    && p' == p.(positions := p'.positions, pending := p'.pending, poll := p'.poll)
    && p.poll.Polling? && p'.poll.Polling? && p'.poll.todo == p.poll.todo
    && (PointId(p'.poll.at) == None || PointId(p'.poll.at) == Some(id))
    && (forall i :: i in p'.pending ==> i in p.pending)
  }

  lemma SettleSellMeets(p: Proc, id: OrderId, ctx: Ctx, o: Order)
    requires p.poll.Polling? && ctx.SellCtx?
    ensures MeetsSame(p, SettleSell(p, id, ctx, o), id)
  {
  }

  lemma SettleBuyMeets(p: Proc, id: OrderId, ctx: Ctx, o: Order)
    requires p.poll.Polling? && ctx.BuyCtx?
    ensures MeetsSame(p, SettleBuy(p, id, ctx, o), id)
  {
  }

  lemma PollCommitKeepsOnce(s: State)
    requires Inv(s) && OnceInv(s)
    ensures OnceInv(Apply(s, PollCommit))
  {
    if s.p.poll.Polling? && s.p.poll.at.Seen? {
      var Seen(id, ctx, o) := s.p.poll.at;
      var p' := PollCommitStep(s.p);
      assert Names(s.b, id, ctx) && Earlier(s.b, id, o);
      if ctx.SellCtx? {
        SettleSellMeets(s.p, id, ctx, o);
        SettleSellTold(s.p, s.b, EventIds(s.p.events), id, ctx, o);
      } else {
        SettleBuyMeets(s.p, id, ctx, o);
        SettleBuyTold(s.p, s.b, EventIds(s.p.events), id, ctx, o);
      }
      assert forall i :: Polled(p'.poll, i) ==> Polled(s.p.poll, i);
      PollKeepsOnce(s, p');
    }
  }

  lemma PollRecheckKeepsOnce(s: State)
    requires OnceInv(s)
    ensures OnceInv(Apply(s, PollRecheck))
  {
    if s.p.poll.Polling? && s.p.poll.at.Opening? && s.p.poll.at.ctx.BuyCtx? {
      PollKeepsOnce(s, PollRecheckStep(s.p));
    }
  }

  // ----- the step that reports

  lemma TellOne(told: set<OrderId>, b: Broker, pending: map<OrderId, Ctx>, todo: seq<(OrderId, Ctx)>, id: OrderId)
    requires PendingTold(told, b, pending) && TodoTold(told, b, todo, Some(id)) && AboutToTell(told, b, pending, id)
    ensures PendingTold(told + {id}, b, pending) && TodoTold(told + {id}, b, todo, None)
  {
    forall i | i in pending ensures Told(told + {id}, b, i, pending[i]) {
      assert Told(told, b, i, pending[i]);
    }
  }

  lemma EventAppended(events: seq<Event>, e: Event)
    requires DistinctEvents(events) && e.id !in EventIds(events)
    ensures DistinctEvents(events + [e]) && EventIds(events + [e]) == EventIds(events) + {e.id}
  {
    forall k | 0 <= k < |events| ensures events[k].id != e.id {
      assert events[k] in events;
    }
    forall i ensures i in EventIds(events + [e]) <==> i in EventIds(events) + {e.id} {
      if i in EventIds(events) {
        var f :| f in events && f.id == i;
        assert f in events + [e];
      } else if i == e.id {
        assert e in events + [e];
      }
    }
  }

  lemma SilentStoreKeepsOnce(s: State, ok: bool)
    requires OnceInv(s) && s.p.poll.Polling? && s.p.poll.at.Storing? && s.p.poll.at.event.None?
    ensures OnceInv(s.(p := PollStoreStep(s, ok).p))
  {
    var p' := PollStoreStep(s, ok).p;
    assert p'.events == s.p.events && p'.inserts == s.p.inserts;
    PollKeepsOnce(s, p');
  }

  lemma ReportKeepsOnce(s: State, ok: bool)
    requires OnceInv(s) && s.p.poll.Polling? && s.p.poll.at.Storing? && s.p.poll.at.event.Some?
    ensures OnceInv(s.(p := PollStoreStep(s, ok).p))
  {
    var p' := PollStoreStep(s, ok).p;
    var told := EventIds(s.p.events);
    var e := s.p.poll.at.event.value;
    EventAppended(s.p.events, e);
    TellOne(told, s.b, s.p.pending, s.p.poll.todo, e.id);
    assert EventIds(p'.events) == told + {e.id};
    assert Polled(s.p.poll, e.id);
    InsertsStay(s, ok);
    assert PollTold(EventIds(p'.events), s.b, p'.pending, p'.poll);
    MeetsNoMore(s.b, s.p, p');
  }

  lemma PollStoreKeepsOnce(s: State, ok: bool)
    requires OnceInv(s)
    ensures OnceInv(Apply(s, PollStore(ok)))
  {
    if s.p.poll.Polling? && s.p.poll.at.Storing? {
      if s.p.poll.at.event.Some? {
        ReportKeepsOnce(s, ok);
      } else {
        SilentStoreKeepsOnce(s, ok);
      }
    }
  }

  lemma InsertsStay(s: State, ok: bool)
    requires OnceInv(s) && s.p.poll.Polling? && s.p.poll.at.Storing?
    requires s.p.poll.at.event.Some? ==> EventIds(PollStoreStep(s, ok).p.events) == EventIds(s.p.events) + {s.p.poll.at.event.value.id}
    ensures var p' := PollStoreStep(s, ok).p;
      DistinctIds(p'.inserts) && forall id :: id in p'.inserts ==> id in EventIds(p'.events)
  {
    var p' := PollStoreStep(s, ok).p;
    if s.p.poll.at.op.Some? && s.p.poll.at.op.value.OpenRow? {
      var id := s.p.poll.at.op.value.id;
      assert p'.inserts == s.p.inserts + [id];
      assert id !in s.p.inserts;
    } else {
      assert p'.inserts == s.p.inserts;
      assert s.p.poll.at.event.None? ==> p'.events == s.p.events;
    }
  }

  // ----- steps that register or drop orders

  /** Pending entries may go, and the order `id`, never met before and held by no call any more, may
      be registered as not yet reported. */
  lemma RegisterKeepsOnce(s: State, p': Proc, id: OrderId)
    requires OnceInv(s)
    requires p' == s.p.(positions := p'.positions, pending := p'.pending, buys := p'.buys, sells := p'.sells, recon := p'.recon)
    requires forall i :: i in p'.pending ==> i == id || (i in s.p.pending && p'.pending[i] == s.p.pending[i])
    requires id in p'.pending ==> !Met(EventIds(s.p.events), s.p.pending, s.p.poll, id) && id in s.b.orders
    requires forall t :: t in p'.buys ==> t in s.p.buys && p'.buys[t] == s.p.buys[t] && p'.buys[t].at != Sent(id)
    requires forall c :: c in p'.sells ==> c in s.p.sells && p'.sells[c] == s.p.sells[c] && p'.sells[c].at != SellSent(id)
    requires p'.recon.Registering? ==> s.p.recon.Registering? && id !in p'.recon.orders && forall i :: i in p'.recon.orders ==> i in s.p.recon.orders
    requires EmptyBeforeRecon(p')
    ensures OnceInv(s.(p := p'))
  {
    var told := EventIds(s.p.events);
    assert forall i :: Met(told, p'.pending, s.p.poll, i) ==> Met(told, s.p.pending, s.p.poll, i) || i == id;
    assert PendingTold(told, s.b, p'.pending) by {
      forall i | i in p'.pending ensures Told(told, s.b, i, p'.pending[i]) {
        assert i != id ==> Told(told, s.b, i, s.p.pending[i]);
      }
    }
    if s.p.poll.Polling? && PointId(s.p.poll.at).Some? {
      assert Polled(s.p.poll, PointId(s.p.poll.at).value);
    }
  }

  lemma BuyRegisterKeepsOnce(s: State, tid: nat)
    requires Inv(s) && OnceInv(s)
    ensures OnceInv(Apply(s, BuyRegister(tid)))
  {
    if tid in s.p.buys && s.p.buys[tid].at.Sent? {
      var p' := BuyRegisterStep(s.p, tid);
      var id := s.p.buys[tid].at.id;
      assert BuyCallOk(s.b, s.p.buys[tid]);
      forall c | c in p'.sells ensures p'.sells[c].at != SellSent(id) {
        assert SellCallOk(s.b, s.p.pending, c, s.p.sells[c]);
      }
      RegisterKeepsOnce(s, p', id);
    }
  }

  lemma SellRegisterKeepsOnce(s: State, c: Contract)
    requires Inv(s) && OnceInv(s)
    ensures OnceInv(Apply(s, SellRegister(c)))
  {
    if c in s.p.sells && s.p.sells[c].at.SellSent? {
      var p' := SellRegisterStep(s.p, c);
      var id := s.p.sells[c].at.id;
      assert SellCallOk(s.b, s.p.pending, c, s.p.sells[c]);
      forall d | d in p'.sells ensures p'.sells[d].at != SellSent(id) {
        assert SellCallOk(s.b, s.p.pending, d, s.p.sells[d]);
      }
      forall t | t in p'.buys ensures p'.buys[t].at != Sent(id) {
        assert BuyCallOk(s.b, s.p.buys[t]);
      }
      RegisterKeepsOnce(s, p', id);
    }
  }

  lemma SellSizeKeepsOnce(s: State, c: Contract, ok: bool)
    requires Inv(s) && OnceInv(s)
    ensures OnceInv(Apply(s, SellSize(c, ok)))
  {
    if c in s.p.sells && s.p.sells[c].at == Cancelling({}) {
      var p' := SellSizeStep(s.b, s.p, c, ok);
      if ok && s.b.Net(c) <= 0 {
        DropKeepsOnce(s, p');
      } else {
        CallsKeepOnce(s, p');
      }
    }
  }

  lemma DropKeepsOnce(s: State, p': Proc)
    requires OnceInv(s) && s.p.reconciled
    requires p' == s.p.(positions := p'.positions, pending := p'.pending, sells := p'.sells)
    requires forall i :: i in p'.pending ==> i in s.p.pending && p'.pending[i] == s.p.pending[i]
    requires forall c :: c in p'.sells ==> c in s.p.sells && p'.sells[c] == s.p.sells[c]
    ensures OnceInv(s.(p := p'))
  {
    var told := EventIds(s.p.events);
    assert forall i :: Met(told, p'.pending, s.p.poll, i) ==> Met(told, s.p.pending, s.p.poll, i);
    assert PendingTold(told, s.b, p'.pending) by {
      forall i | i in p'.pending ensures Told(told, s.b, i, p'.pending[i]) {
        assert Told(told, s.b, i, s.p.pending[i]);
      }
    }
  }

  lemma ReconRegisters(p: Proc, id: OrderId, parsed: Option<Terms>)
    requires p.recon.Registering? && id in p.recon.orders
    ensures var p' := ReconRegisterStep(p, id, parsed);
      && p' == p.(pending := p'.pending, recon := Registering(p.recon.orders - {id}, p.recon.openRows))
      && forall i :: i in p'.pending ==> i == id || (i in p.pending && p'.pending[i] == p.pending[i])
  {
  }

  lemma ReconRegisterKeepsOnce(s: State, id: OrderId, parsed: Option<Terms>)
    requires Inv(s) && OnceInv(s)
    ensures OnceInv(Apply(s, ReconRegister(id, parsed)))
  {
    if s.p.recon.Registering? && id in s.p.recon.orders {
      assert Earlier(s.b, id, s.p.recon.orders[id]);
      assert !Met(EventIds(s.p.events), s.p.pending, s.p.poll, id);
      ReconRegisters(s.p, id, parsed);
      RegisterKeepsOnce(s, ReconRegisterStep(s.p, id, parsed), id);
    }
  }

  // ----- steps of the calls

  /** The checks of buy_option only move calls that hold no order yet. */
  ghost predicate OnlyChecks(p: Proc, p': Proc) {
    && p' == p.(buys := p'.buys)
    && (forall t :: t in p'.buys && p'.buys[t].at.Sent? ==> t in p.buys && p.buys[t].at == p'.buys[t].at)
    && (forall t :: t in p.buys && p.buys[t].at.Sent? ==> t in p'.buys && p'.buys[t].at == p.buys[t].at)
  }

  lemma BuyChecksKeepOnce(s: State, p': Proc)
    requires OnceInv(s) && OnlyChecks(s.p, p')
    ensures OnceInv(s.(p := p'))
  {
    CallsKeepOnce(s, p');
  }

  lemma AdmitChecks(p: Proc, tid: nat, c: Contract, terms: Terms, qty: nat)
    ensures OnlyChecks(p, BuyAdmitStep(p, tid, c, terms, qty))
  {
  }

  lemma MemoryChecks(p: Proc, tid: nat)
    ensures OnlyChecks(p, BuyCheckMemoryStep(p, tid))
  {
  }

  lemma BrokerChecks(b: Broker, p: Proc, tid: nat, ok: bool)
    ensures OnlyChecks(p, BuyCheckBrokerStep(b, p, tid, ok))
  {
  }

  lemma GiveUpChecks(p: Proc, tid: nat)
    ensures OnlyChecks(p, BuyGiveUpStep(p, tid))
  {
  }

  lemma BuyCheckStepChecks(s: State, st: Step)
    requires st.BuyAdmit? || st.BuyCheckMemory? || st.BuyCheckBroker? || st.BuyGiveUp?
    ensures Apply(s, st) == s.(p := Apply(s, st).p) && OnlyChecks(s.p, Apply(s, st).p)
  {
    match st
    case BuyAdmit(tid, c, terms, qty) => AdmitChecks(s.p, tid, c, terms, qty);
    case BuyCheckMemory(tid) => MemoryChecks(s.p, tid);
    case BuyCheckBroker(tid, ok) => BrokerChecks(s.b, s.p, tid, ok);
    case BuyGiveUp(tid) => GiveUpChecks(s.p, tid);
  }

  lemma BuyCheckKeepsOnce(s: State, st: Step)
    requires OnceInv(s)
    requires st.BuyAdmit? || st.BuyCheckMemory? || st.BuyCheckBroker? || st.BuyGiveUp?
    ensures OnceInv(Apply(s, st))
  {
    BuyCheckStepChecks(s, st);
    BuyChecksKeepOnce(s, Apply(s, st).p);
  }

  lemma BuySubmitKeepsOnce(s: State, tid: nat, id: OrderId)
    requires Inv(s) && OnceInv(s)
    ensures OnceInv(Apply(s, BuySubmit(tid, id)))
  {
    if tid in s.p.buys && s.p.buys[tid].at.Cleared? && id !in s.b.orders {
      var t := BuySubmitStep(s, tid, id);
      VenueKeepsOnce(s, t.b);
      assert !Met(EventIds(s.p.events), s.p.pending, s.p.poll, id);
      forall u | u in s.p.buys && s.p.buys[u].at.Sent? ensures s.p.buys[u].at != Sent(id) {
        assert BuyCallOk(s.b, s.p.buys[u]);
      }
      CallsKeepOnce(s.(b := t.b), t.p);
    }
  }

  lemma SellMovesOn(s: State, c: Contract, call: SellCall)
    requires OnceInv(s) && !call.at.SellSent?
    ensures OnceInv(s.(p := s.p.(sells := s.p.sells[c := call])))
  {
    CallsKeepOnce(s, s.p.(sells := s.p.sells[c := call]));
  }

  lemma SellCancelKeepsOnce(s: State, c: Contract, id: OrderId, ok: bool)
    requires Inv(s) && OnceInv(s)
    ensures OnceInv(Apply(s, SellCancel(c, id, ok)))
  {
    if c in s.p.sells && s.p.sells[c].at.Cancelling? && id in s.p.sells[c].at.todo {
      var call := s.p.sells[c];
      var next := call.(at := Cancelling(call.at.todo - {id}));
      if ok && s.b.CanCancel(id) {
        VenueKeepsOnce(s, s.b.Cancel(id));
        SellMovesOn(s.(b := s.b.Cancel(id)), c, next.(canceled := call.canceled + {id}));
      } else {
        SellMovesOn(s, c, next);
      }
    }
  }

  lemma SellBeginKeepsOnce(s: State, c: Contract, reason: string)
    requires OnceInv(s)
    ensures OnceInv(Apply(s, SellBegin(c, reason)))
  {
    CallsKeepOnce(s, SellBeginStep(s.p, c, reason));
  }

  lemma SellSubmitKeepsOnce(s: State, c: Contract, id: OrderId, ok: bool)
    requires Inv(s) && OnceInv(s)
    ensures OnceInv(Apply(s, SellSubmit(c, id, ok)))
  {
    if c in s.p.sells && s.p.sells[c].at.Sized? {
      var t := SellSubmitStep(s, c, id, ok);
      if !ok {
        CallsKeepOnce(s, t.p);
      } else if id !in s.b.orders {
        VenueKeepsOnce(s, t.b);
        assert !Met(EventIds(s.p.events), s.p.pending, s.p.poll, id);
        CallsKeepOnce(s.(b := t.b), t.p);
      }
    }
  }

  lemma ReconReadKeepsOnce(s: State, p': Proc)
    requires Inv(s) && OnceInv(s) && !s.p.reconciled
    requires p' == s.p.(positions := p'.positions, recon := p'.recon)
    requires !s.p.recon.Registering?
    requires p'.recon.Registering? ==> forall i :: i in p'.recon.orders ==> i in s.b.orders
    ensures OnceInv(s.(p := p'))
  {
    assert EventIds(s.p.events) == {};
    assert forall i :: !Met(EventIds(s.p.events), s.p.pending, s.p.poll, i);
  }

  lemma ReconStepKeepsOnce(s: State, st: Step)
    requires Inv(s) && OnceInv(s)
    requires st.ReconBegin? || st.ReconRows? || st.ReconRestore? || st.ReconOrders?
    ensures OnceInv(Apply(s, st))
  {
    var p' := Apply(s, st).p;
    if !s.p.reconciled && !s.p.recon.Registering? {
      ReconReadKeepsOnce(s, p');
    } else {
      assert p' == s.p;
    }
  }

  lemma ReconFinishKeepsOnce(s: State)
    requires Inv(s) && OnceInv(s)
    ensures OnceInv(Apply(s, ReconFinish))
  {
  }

  // ----- every run of one process life

  lemma SellStepKeepsOnce(s: State, st: Step)
    requires Inv(s) && OnceInv(s) && IsSellStep(st)
    ensures OnceInv(Apply(s, st))
  {
    match st
    case SellBegin(c, reason) => SellBeginKeepsOnce(s, c, reason);
    case SellCancel(c, id, ok) => SellCancelKeepsOnce(s, c, id, ok);
    case SellSize(c, ok) => SellSizeKeepsOnce(s, c, ok);
    case SellSubmit(c, id, ok) => SellSubmitKeepsOnce(s, c, id, ok);
    case SellRegister(c) => SellRegisterKeepsOnce(s, c);
  }

  lemma ReconcilerKeepsOnce(s: State, st: Step)
    requires Inv(s) && OnceInv(s) && IsReconStep(st)
    ensures OnceInv(Apply(s, st))
  {
    match st
    case ReconRegister(id, parsed) => ReconRegisterKeepsOnce(s, id, parsed);
    case ReconFinish => ReconFinishKeepsOnce(s);
    case _ => ReconStepKeepsOnce(s, st);
  }

  lemma PollStepKeepsOnce(s: State, st: Step)
    requires Inv(s) && OnceInv(s) && IsPollStep(st)
    ensures OnceInv(Apply(s, st))
  {
    match st
    case PollBegin(ids) => PollBeginKeepsOnce(s, ids);
    case PollRead(ok) => PollReadKeepsOnce(s, ok);
    case PollCommit => PollCommitKeepsOnce(s);
    case PollRecheck => PollRecheckKeepsOnce(s);
    case PollStore(ok) => PollStoreKeepsOnce(s, ok);
  }

  lemma BuyStepKeepsOnce(s: State, st: Step)
    requires Inv(s) && OnceInv(s) && IsBuyStep(st)
    ensures OnceInv(Apply(s, st))
  {
    match st
    case BuySubmit(tid, id) => BuySubmitKeepsOnce(s, tid, id);
    case BuyRegister(tid) => BuyRegisterKeepsOnce(s, tid);
    case _ => BuyCheckKeepsOnce(s, st);
  }

  lemma StepKeepsOnce(s: State, st: Step)
    requires Inv(s) && OnceInv(s) && !st.Crash?
    ensures OnceInv(Apply(s, st))
  {
    if IsPollStep(st) {
      PollStepKeepsOnce(s, st);
    } else if IsBuyStep(st) {
      BuyStepKeepsOnce(s, st);
    } else if st.BrokerAdvance? {
      AdvanceKeepsOnce(s, st.id, st.n, st.avgPrice, st.status);
    } else if IsSellStep(st) {
      SellStepKeepsOnce(s, st);
    } else {
      ReconcilerKeepsOnce(s, st);
    }
  }

  lemma {:induction false} RunKeepsOnce(s: State, steps: seq<Step>)
    requires Inv(s) && OnceInv(s) && OneLife(steps)
    ensures Inv(Run(s, steps)) && OnceInv(Run(s, steps))
    decreases |steps|
  {
    if steps != [] {
      StepKeeps(s, steps[0]);
      StepKeepsOnce(s, steps[0]);
      RunKeepsOnce(Apply(s, steps[0]), steps[1..]);
    }
  }

  /** The main result: over any run of one process life, each order id is in at most one reported
      event and at most one row insert, and only reported BUYs have had a row inserted. */
  lemma ReportedAtMostOnce(b: Broker, rows: seq<Row>, steps: seq<Step>)
    requires b.NeverShort() && OneLife(steps)
    ensures var p := Run(State(b, FRESH, rows), steps).p;
      DistinctEvents(p.events) && DistinctIds(p.inserts) && forall id :: id in p.inserts ==> id in EventIds(p.events)
  {
    RunKeepsOnce(State(b, FRESH, rows), steps);
  }

  // ----- no resurrection

  /** A call, or the list of a reconcile, still holds `id` for registration. */
  ghost predicate HeldByCall(p: Proc, id: OrderId) {
    || (exists t :: t in p.buys && p.buys[t].at == Sent(id))
    || (exists c :: c in p.sells && p.sells[c].at == SellSent(id))
    || (p.recon.Registering? && id in p.recon.orders)
  }

  /** The list of open orders has been fetched, and is either registered or about to be: before that
      nothing is pending. */
  ghost predicate Fetched(p: Proc) {
    p.reconciled || p.recon.Registering?
  }

  /** The process is done with `id`. */
  ghost predicate Gone(s: State, id: OrderId) {
    Fetched(s.p) && id in s.b.orders && id !in s.p.pending && !HeldByCall(s.p, id)
  }

  /** `id` becomes pending only from a call that held it, and no call newly holds it. */
  ghost predicate AddsOnlyHeld(s: State, t: State, id: OrderId) {
    && id in t.b.orders && Fetched(t.p)
    && (id in t.p.pending ==> id in s.p.pending || HeldByCall(s.p, id))
    && (HeldByCall(t.p, id) ==> HeldByCall(s.p, id))
  }

  lemma CommitAddsNothing(s: State, id: OrderId)
    requires Fetched(s.p) && id in s.b.orders
    ensures AddsOnlyHeld(s, Apply(s, PollCommit), id)
  {
    if s.p.poll.Polling? && s.p.poll.at.Seen? {
      if s.p.poll.at.ctx.SellCtx? {
        SettleSellMeets(s.p, s.p.poll.at.id, s.p.poll.at.ctx, s.p.poll.at.order);
      } else {
        SettleBuyMeets(s.p, s.p.poll.at.id, s.p.poll.at.ctx, s.p.poll.at.order);
      }
    }
  }

  lemma SameCallsAddNothing(s: State, t: State, id: OrderId)
    requires Fetched(s.p) && id in s.b.orders
    requires t.b == s.b && t.p.reconciled == s.p.reconciled
    requires t.p.buys == s.p.buys && t.p.sells == s.p.sells && t.p.recon == s.p.recon
    requires id in t.p.pending ==> id in s.p.pending
    ensures AddsOnlyHeld(s, t, id)
  {
  }

  lemma PollMoveAddsNothing(s: State, poll': Poll, id: OrderId)
    requires Fetched(s.p) && id in s.b.orders
    ensures AddsOnlyHeld(s, s.(p := s.p.(poll := poll')), id)
  {
  }

  lemma PollBeginAddsNothing(s: State, ids: seq<OrderId>, id: OrderId)
    requires Fetched(s.p) && id in s.b.orders
    ensures AddsOnlyHeld(s, Apply(s, PollBegin(ids)), id)
  {
    assert PollBeginStep(s.p, ids) == s.p.(poll := PollBeginStep(s.p, ids).poll);
    PollMoveAddsNothing(s, PollBeginStep(s.p, ids).poll, id);
  }

  lemma PollReadSameCalls(b: Broker, p: Proc, ok: bool)
    ensures var q := PollReadStep(b, p, ok);
      q.reconciled == p.reconciled && q.buys == p.buys && q.sells == p.sells && q.recon == p.recon && q.pending.Keys <= p.pending.Keys
  {
  }

  lemma PollReadAddsNothing(s: State, ok: bool, id: OrderId)
    requires Fetched(s.p) && id in s.b.orders
    ensures AddsOnlyHeld(s, Apply(s, PollRead(ok)), id)
  {
    PollReadSameCalls(s.b, s.p, ok);
    SameCallsAddNothing(s, s.(p := PollReadStep(s.b, s.p, ok)), id);
  }

  lemma PollRecheckAddsNothing(s: State, id: OrderId)
    requires Fetched(s.p) && id in s.b.orders
    ensures AddsOnlyHeld(s, Apply(s, PollRecheck), id)
  {
    PollMoveAddsNothing(s, PollRecheckStep(s.p).poll, id);
  }

  lemma PollStoreAddsNothing(s: State, ok: bool, id: OrderId)
    requires Fetched(s.p) && id in s.b.orders
    ensures AddsOnlyHeld(s, Apply(s, PollStore(ok)), id)
  {
    SameCallsAddNothing(s, PollStoreStep(s, ok), id);
  }

  lemma BuyCheckAddsNothing(s: State, st: Step, id: OrderId)
    requires Fetched(s.p) && id in s.b.orders
    requires st.BuyAdmit? || st.BuyCheckMemory? || st.BuyCheckBroker? || st.BuyGiveUp?
    ensures AddsOnlyHeld(s, Apply(s, st), id)
  {
    BuyCheckStepChecks(s, st);
  }

  lemma BuySubmitAddsNothing(s: State, tid: nat, added: OrderId, id: OrderId)
    requires Fetched(s.p) && id in s.b.orders
    ensures AddsOnlyHeld(s, Apply(s, BuySubmit(tid, added)), id)
  {
  }

  lemma BuyRegisterAddsHeld(s: State, tid: nat, id: OrderId)
    requires Fetched(s.p) && id in s.b.orders
    ensures AddsOnlyHeld(s, Apply(s, BuyRegister(tid)), id)
  {
  }

  lemma SameSentAddNothing(s: State, t: State, id: OrderId)
    requires Fetched(s.p) && id in s.b.orders
    requires id in t.b.orders && t.p.reconciled == s.p.reconciled
    requires t.p.buys == s.p.buys && t.p.recon == s.p.recon
    requires forall d :: d in t.p.sells && t.p.sells[d].at.SellSent? ==> d in s.p.sells && t.p.sells[d].at == s.p.sells[d].at
    requires id in t.p.pending ==> id in s.p.pending
    ensures AddsOnlyHeld(s, t, id)
  {
  }

  lemma SellBeginAddsNothing(s: State, c: Contract, reason: string, id: OrderId)
    requires Fetched(s.p) && id in s.b.orders
    ensures AddsOnlyHeld(s, Apply(s, SellBegin(c, reason)), id)
  {
    SameSentAddNothing(s, s.(p := SellBeginStep(s.p, c, reason)), id);
  }

  lemma SellCancelAddsNothing(s: State, c: Contract, canceled: OrderId, ok: bool, id: OrderId)
    requires Fetched(s.p) && id in s.b.orders
    ensures AddsOnlyHeld(s, Apply(s, SellCancel(c, canceled, ok)), id)
  {
    SameSentAddNothing(s, SellCancelStep(s, c, canceled, ok), id);
  }

  lemma SellSizeAddsNothing(s: State, c: Contract, ok: bool, id: OrderId)
    requires Fetched(s.p) && id in s.b.orders
    ensures AddsOnlyHeld(s, Apply(s, SellSize(c, ok)), id)
  {
    SameSentAddNothing(s, s.(p := SellSizeStep(s.b, s.p, c, ok)), id);
  }

  lemma SellSubmitAddsNothing(s: State, c: Contract, added: OrderId, ok: bool, id: OrderId)
    requires Fetched(s.p) && id in s.b.orders
    ensures AddsOnlyHeld(s, Apply(s, SellSubmit(c, added, ok)), id)
  {
  }

  lemma SellRegisterAddsHeld(s: State, c: Contract, id: OrderId)
    requires Fetched(s.p) && id in s.b.orders
    ensures AddsOnlyHeld(s, Apply(s, SellRegister(c)), id)
  {
  }

  lemma ReconRegisterAddsListed(s: State, added: OrderId, parsed: Option<Terms>, id: OrderId)
    requires Fetched(s.p) && id in s.b.orders
    ensures AddsOnlyHeld(s, Apply(s, ReconRegister(added, parsed)), id)
  {
    if s.p.recon.Registering? && added in s.p.recon.orders {
      ReconRegisters(s.p, added, parsed);
    }
  }

  lemma ReconAddsHeld(s: State, st: Step, id: OrderId)
    requires PhasesOk(s.p) && Fetched(s.p) && id in s.b.orders && IsReconStep(st)
    ensures AddsOnlyHeld(s, Apply(s, st), id)
  {
    match st
    case ReconRegister(added, parsed) => ReconRegisterAddsListed(s, added, parsed, id);
    case _ =>
  }

  /** Orders enter the pending map only from the call that registers them. */
  lemma StepAddsOnlyHeld(s: State, st: Step, id: OrderId)
    requires PhasesOk(s.p) && Fetched(s.p) && id in s.b.orders && !st.Crash?
    ensures AddsOnlyHeld(s, Apply(s, st), id)
  {
    match st
    case BrokerAdvance(_, _, _, _) =>
    case PollBegin(ids) => PollBeginAddsNothing(s, ids, id);
    case PollRead(ok) => PollReadAddsNothing(s, ok, id);
    case PollCommit => CommitAddsNothing(s, id);
    case PollRecheck => PollRecheckAddsNothing(s, id);
    case PollStore(ok) => PollStoreAddsNothing(s, ok, id);
    case BuyAdmit(_, _, _, _) => BuyCheckAddsNothing(s, st, id);
    case BuyCheckMemory(_) => BuyCheckAddsNothing(s, st, id);
    case BuyCheckBroker(_, _) => BuyCheckAddsNothing(s, st, id);
    case BuyGiveUp(_) => BuyCheckAddsNothing(s, st, id);
    case BuySubmit(tid, added) => BuySubmitAddsNothing(s, tid, added, id);
    case BuyRegister(tid) => BuyRegisterAddsHeld(s, tid, id);
    case SellBegin(c, reason) => SellBeginAddsNothing(s, c, reason, id);
    case SellCancel(c, canceled, ok) => SellCancelAddsNothing(s, c, canceled, ok, id);
    case SellSize(c, ok) => SellSizeAddsNothing(s, c, ok, id);
    case SellSubmit(c, added, ok) => SellSubmitAddsNothing(s, c, added, ok, id);
    case SellRegister(c) => SellRegisterAddsHeld(s, c, id);
    case _ => ReconAddsHeld(s, st, id);
  }

  /** Whatever makes an order leave the pending map, its own poll or a concurrent sell_option, the
      process is then done with it. */
  lemma LeavesForGood(s: State, st: Step, id: OrderId)
    requires Inv(s) && OnceInv(s) && !st.Crash?
    requires id in s.p.pending && id !in Apply(s, st).p.pending
    ensures Gone(Apply(s, st), id)
  {
    assert Names(s.b, id, s.p.pending[id]);
    assert Met(EventIds(s.p.events), s.p.pending, s.p.poll, id);
    StepAddsOnlyHeld(s, st, id);
  }

  /** Once gone, gone for the rest of the process life. */
  lemma {:induction false} StaysGone(s: State, steps: seq<Step>, id: OrderId)
    requires Inv(s) && Gone(s, id) && OneLife(steps)
    ensures Gone(Run(s, steps), id)
    decreases |steps|
  {
    if steps != [] {
      StepKeeps(s, steps[0]);
      StepAddsOnlyHeld(s, steps[0], id);
      StaysGone(Apply(s, steps[0]), steps[1..], id);
    }
  }

  /** Reaching the lock with `id` no longer pending, the poll leaves positions, pending entries and
      rows alone. */
  ghost predicate CommitsNothing(s: State) {
    var t := Apply(s, PollCommit);
    && t.p.positions == s.p.positions && t.p.pending == s.p.pending
    && (t.p.poll.Polling? ==> !t.p.poll.at.Opening? && (t.p.poll.at.Storing? ==> t.p.poll.at.op.None?))
  }

  lemma UnlistedCommitsNothing(s: State)
    requires s.p.poll.Polling? && s.p.poll.at.Seen? && s.p.poll.at.id !in s.p.pending
    ensures CommitsNothing(s)
  {
    assert s.p.pending - {s.p.poll.at.id} == s.p.pending;
  }

  /** A poll that read a gone order before it was dropped commits nothing when it gets to the lock. */
  lemma GoneNeverWrites(s: State, steps: seq<Step>, id: OrderId)
    requires Inv(s) && Gone(s, id) && OneLife(steps)
    ensures var t := Run(s, steps);
      t.p.poll.Polling? && t.p.poll.at.Seen? && t.p.poll.at.id == id ==> CommitsNothing(t)
  {
    StaysGone(s, steps, id);
    var t := Run(s, steps);
    if t.p.poll.Polling? && t.p.poll.at.Seen? && t.p.poll.at.id == id {
      UnlistedCommitsNothing(t);
    }
  }
}
