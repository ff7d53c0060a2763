/** What a closed row records. Rows are only ever added, re-quantified while open, or closed; and each row
    closed in a process life carries the reason and the price of a SELL of its contract that is over. */
module ClosedRows {
  import opened Wrappers
  import opened OptionBroker
  import opened OptionProtocol
  import opened NeverShort
  import opened ExactlyOnce
  import opened ThreadFrames
  import opened TrueReports

  // ----- rows from one step to the next

  /** A row keeps its contract and terms; a closed one never changes, and closing one leaves its premium
      and quantity. */
  ghost predicate Kept(row: Row, row': Row) {
    && row'.contract == row.contract && row'.terms == row.terms
    && (row.exit.Some? ==> row' == row)
    && (row.exit.None? && row'.exit.Some? ==> row'.entryPremium == row.entryPremium && row'.qty == row.qty)
  }

  ghost predicate RowsKept(rows: seq<Row>, rows': seq<Row>) {
    |rows| <= |rows'| && forall k :: 0 <= k < |rows| ==> Kept(rows[k], rows'[k])
  }

  lemma SellLeavesRows(s: State, st: Step)
    requires IsSellStep(st)
    ensures Apply(s, st).rows == s.rows
  {
  }

  /** No step, a crash included, takes a row away or changes a closed one, and only the poll's database
      call changes any. */
  lemma StepKeepsRows(s: State, st: Step)
    ensures RowsKept(s.rows, Apply(s, st).rows)
    ensures !st.PollStore? ==> Apply(s, st).rows == s.rows
  {
    if IsSellStep(st) {
      SellLeavesRows(s, st);
    }
  }

  // ----- the sales of a process life

  const RESTARTED := "reconstructed_after_restart"

  /** The reasons the sell_option calls were given, and the one under which each SELL at the venue is
      watched: its call's, or the reconcile's. */
  datatype Sales = Sales(asked: map<Contract, string>, sent: map<OrderId, string>)

  function Noted(h: Sales, s: State, st: Step): Sales {
    match st
    case SellBegin(c, reason) => if MaySell(s.p, c) && !SellPending(s.p.pending, c) then h.(asked := h.asked[c := reason]) else h
    case SellSubmit(c, id, ok) =>
      if ok && c in s.p.sells && s.p.sells[c].at.Sized? && id !in s.b.orders && c in h.asked
      then h.(sent := h.sent[id := h.asked[c]]) else h
    case ReconRegister(id, _) =>
      if s.p.recon.Registering? && id in s.p.recon.orders && s.p.recon.orders[id].side == Sell && id !in s.p.pending
      then h.(sent := h.sent[id := RESTARTED]) else h
    case _ => h
  }

  function SalesOf(h: Sales, s: State, steps: seq<Step>): Sales
    decreases |steps|
  {
    if steps == [] then h else SalesOf(Noted(h, s, steps[0]), Apply(s, steps[0]), steps[1..])
  }

  /** A SELL of `c` is over with a fill, sold for `reason` at `price` on average. */
  ghost predicate SoldBy(b: Broker, sent: map<OrderId, string>, c: Contract, reason: string, price: real, i: OrderId) {
    && i in sent && sent[i] == reason && i in b.orders
    && var o := b.orders[i]; o.side == Sell && o.contract == c && !o.Open() && o.filled > 0 && o.avgPrice == price
  }

  ghost predicate Sold(b: Broker, sent: map<OrderId, string>, c: Contract, reason: string, price: real) {
    exists i :: SoldBy(b, sent, c, reason, price, i)
  }

  /** `row` was closed before the process started, and so is as it was, or by a finished SELL. */
  ghost predicate ClosedTruly(b: Broker, sent: map<OrderId, string>, rows0: seq<Row>, k: int, row: Row) {
    row.exit.Some? && !(0 <= k < |rows0| && rows0[k].exit.Some?) ==> Sold(b, sent, row.contract, row.exit.value.0, row.exit.value.1)
  }

  ghost predicate Untouched(row: Row, row': Row) {
    row'.contract == row.contract && row'.terms == row.terms && (row.exit.Some? ==> row' == row)
  }

  ghost predicate RowsTrue(b: Broker, sent: map<OrderId, string>, rows0: seq<Row>, rows: seq<Row>) {
    && |rows0| <= |rows|
    && (forall k :: 0 <= k < |rows0| ==> Untouched(rows0[k], rows[k]))
    && (forall k :: 0 <= k < |rows| ==> ClosedTruly(b, sent, rows0, k, rows[k]))
  }

  // ----- what every step keeps

  ghost predicate CallsAsked(h: Sales, sells: map<Contract, SellCall>) {
    forall c :: c in sells ==>
      && c in h.asked && sells[c].reason == h.asked[c]
      && (sells[c].at.SellSent? ==> sells[c].at.id in h.sent && h.sent[sells[c].at.id] == h.asked[c])
  }

  ghost predicate SentKnown(sent: map<OrderId, string>, b: Broker, p: Proc) {
    && (forall i :: i in sent ==> i in b.orders)
    && (p.recon.Registering? ==> forall i :: i in sent ==> i !in p.recon.orders)
    && (!Fetched(p) ==> sent == map[])
  }

  ghost predicate SoldUnder(sent: map<OrderId, string>, i: OrderId, ctx: Ctx) {
    ctx.SellCtx? ==> i in sent && sent[i] == ctx.reason
  }

  ghost predicate PendingSent(sent: map<OrderId, string>, pending: map<OrderId, Ctx>) {
    forall i :: i in pending ==> SoldUnder(sent, i, pending[i])
  }

  /** The call opens an open row, or closes rows as a finished SELL says. */
  ghost predicate OpSent(b: Broker, sent: map<OrderId, string>, op: DbOp) {
    match op
    case OpenRow(_, row) => row.exit.None?
    case UpdateRow(_, _, _) => true
    case CloseRow(c, reason, price) => Sold(b, sent, c, reason, price)
  }

  ghost predicate PointSent(b: Broker, sent: map<OrderId, string>, at: PollPoint) {
    match at
    case Ready => true
    case Seen(id, ctx, _) => SoldUnder(sent, id, ctx)
    case Opening(_, _, _, _) => true
    case Storing(op, _) => op.Some? ==> OpSent(b, sent, op.value)
  }

  ghost predicate PollSent(b: Broker, sent: map<OrderId, string>, poll: Poll) {
    poll.Polling? ==>
      && (forall k :: 0 <= k < |poll.todo| ==> SoldUnder(sent, poll.todo[k].0, poll.todo[k].1))
      && PointSent(b, sent, poll.at)
  }

  ghost predicate ClosedInv(h: Sales, rows0: seq<Row>, s: State) {
    && CallsAsked(h, s.p.sells)
    && SentKnown(h.sent, s.b, s.p)
    && PendingSent(h.sent, s.p.pending)
    && PollSent(s.b, h.sent, s.p.poll)
    && RowsTrue(s.b, h.sent, rows0, s.rows)
  }

  ghost predicate Extends(sent: map<OrderId, string>, sent': map<OrderId, string>) {
    forall i :: i in sent ==> i in sent' && sent'[i] == sent[i]
  }

  lemma SoldStays(b: Broker, b': Broker, sent: map<OrderId, string>, sent': map<OrderId, string>, c: Contract, reason: string, price: real)
    requires Forward(b, b') && Extends(sent, sent') && Sold(b, sent, c, reason, price)
    ensures Sold(b', sent', c, reason, price)
  {
    var i :| SoldBy(b, sent, c, reason, price, i);
    assert Earlier(b', i, b.orders[i]);
    assert SoldBy(b', sent', c, reason, price, i);
  }

  lemma RowsStayTrue(b: Broker, b': Broker, sent: map<OrderId, string>, sent': map<OrderId, string>, rows0: seq<Row>, rows: seq<Row>)
    requires Forward(b, b') && Extends(sent, sent') && RowsTrue(b, sent, rows0, rows)
    ensures RowsTrue(b', sent', rows0, rows)
  {
    forall k | 0 <= k < |rows| ensures ClosedTruly(b', sent', rows0, k, rows[k]) {
      assert ClosedTruly(b, sent, rows0, k, rows[k]);
      if rows[k].exit.Some? && !(0 <= k < |rows0| && rows0[k].exit.Some?) {
        SoldStays(b, b', sent, sent', rows[k].contract, rows[k].exit.value.0, rows[k].exit.value.1);
      }
    }
  }

  lemma PollStaysSent(b: Broker, b': Broker, sent: map<OrderId, string>, sent': map<OrderId, string>, poll: Poll)
    requires Forward(b, b') && Extends(sent, sent') && PollSent(b, sent, poll)
    ensures PollSent(b', sent', poll)
  {
    if poll.Polling? && poll.at.Storing? && poll.at.op.Some? && poll.at.op.value.CloseRow? {
      var op := poll.at.op.value;
      SoldStays(b, b', sent, sent', op.contract, op.reason, op.price);
    }
  }

  /** A step of another thread than the poll: the venue moves forward, sales may be noted. */
  lemma OthersKeepClosed(h: Sales, rows0: seq<Row>, s: State, h': Sales, t: State)
    requires ClosedInv(h, rows0, s)
    requires Forward(s.b, t.b) && Extends(h.sent, h'.sent) && t.p.poll == s.p.poll && t.rows == s.rows
    requires CallsAsked(h', t.p.sells) && SentKnown(h'.sent, t.b, t.p) && PendingSent(h'.sent, t.p.pending)
    ensures ClosedInv(h', rows0, t)
  {
    RowsStayTrue(s.b, t.b, h.sent, h'.sent, rows0, s.rows);
    PollStaysSent(s.b, t.b, h.sent, h'.sent, s.p.poll);
  }

  // ----- the poll

  lemma SnapshotSent(h: Sales, b: Broker, p: Proc, ids: seq<OrderId>)
    requires PendingSent(h.sent, p.pending) && PollSent(b, h.sent, p.poll)
    ensures PollSent(b, h.sent, PollBeginStep(p, ids).poll)
  {
  }

  lemma TakenSent(b: Broker, sent: map<OrderId, string>, todo: seq<(OrderId, Ctx)>, o: Order)
    requires todo != [] && PollSent(b, sent, Polling(todo, Ready))
    ensures PollSent(b, sent, Polling(todo[1..], Ready)) && PollSent(b, sent, Polling(todo[1..], Seen(todo[0].0, todo[0].1, o)))
  {
    assert SoldUnder(sent, todo[0].0, todo[0].1);
  }

  lemma DroppedSent(sent: map<OrderId, string>, pending: map<OrderId, Ctx>, id: OrderId)
    ensures PendingSent(sent, pending) ==> PendingSent(sent, pending - {id})
  {
  }

  lemma ReadSent(sent: map<OrderId, string>, b: Broker, p: Proc, ok: bool)
    requires PollSent(b, sent, p.poll)
    ensures var q := PollReadStep(b, p, ok); (PendingSent(sent, p.pending) ==> PendingSent(sent, q.pending)) && PollSent(b, sent, q.poll)
  {
    if p.poll.Polling? && p.poll.at.Ready? && p.poll.todo != [] {
      var id := p.poll.todo[0].0;
      TakenSent(b, sent, p.poll.todo, if id in b.orders then b.orders[id] else Order(p.poll.todo[0].1.contract, Buy, 0, 0, 0.0, New));
      DroppedSent(sent, p.pending, id);
    }
  }

  lemma SettledSellSent(sent: map<OrderId, string>, b: Broker, p: Proc, id: OrderId, ctx: Ctx, o: Order)
    requires PollSent(b, sent, p.poll)
    requires p.poll.Polling? && p.poll.at == Seen(id, ctx, o) && ctx.SellCtx? && Names(b, id, ctx) && Earlier(b, id, o)
    ensures var q := SettleSell(p, id, ctx, o); (PendingSent(sent, p.pending) ==> PendingSent(sent, q.pending)) && PollSent(b, sent, q.poll)
  {
    if !o.Open() && o.filled > 0 {
      assert SoldBy(b, sent, ctx.contract, ctx.reason, o.avgPrice, id);
    }
  }

  lemma SettledBuySent(sent: map<OrderId, string>, b: Broker, p: Proc, id: OrderId, ctx: Ctx, o: Order)
    requires PollSent(b, sent, p.poll)
    requires p.poll.Polling? && p.poll.at == Seen(id, ctx, o) && ctx.BuyCtx?
    ensures var q := SettleBuy(p, id, ctx, o); (PendingSent(sent, p.pending) ==> PendingSent(sent, q.pending)) && PollSent(b, sent, q.poll)
  {
    DroppedSent(sent, p.pending, id);
    assert PendingSent(sent, p.pending) ==> PendingSent(sent, p.pending[id := ctx.(rowOpened := true)]);
  }

  lemma CommitSent(sent: map<OrderId, string>, s: State)
    requires Inv(s) && PollSent(s.b, sent, s.p.poll)
    ensures var q := PollCommitStep(s.p); (PendingSent(sent, s.p.pending) ==> PendingSent(sent, q.pending)) && PollSent(s.b, sent, q.poll)
  {
    if s.p.poll.Polling? && s.p.poll.at.Seen? {
      var Seen(id, ctx, o) := s.p.poll.at;
      if ctx.SellCtx? { SettledSellSent(sent, s.b, s.p, id, ctx, o); } else { SettledBuySent(sent, s.b, s.p, id, ctx, o); }
    }
  }

  lemma RecheckSent(sent: map<OrderId, string>, b: Broker, p: Proc)
    requires PollSent(b, sent, p.poll)
    ensures PollSent(b, sent, PollRecheckStep(p).poll)
  {
  }

  /** The database call closes rows only as a finished SELL says. */
  lemma StoredRowsTrue(b: Broker, sent: map<OrderId, string>, rows0: seq<Row>, rows: seq<Row>, op: DbOp)
    requires RowsTrue(b, sent, rows0, rows)
    requires OpSent(b, sent, op)
    ensures RowsTrue(b, sent, rows0, ApplyDb(rows, op))
  {
    var rows' := ApplyDb(rows, op);
    forall k | 0 <= k < |rows'| ensures ClosedTruly(b, sent, rows0, k, rows'[k]) {
      assert k < |rows| ==> ClosedTruly(b, sent, rows0, k, rows[k]);
    }
    forall k | 0 <= k < |rows0| ensures Untouched(rows0[k], rows'[k]) {
      assert Untouched(rows0[k], rows[k]);
    }
  }

  lemma StoreTrue(sent: map<OrderId, string>, rows0: seq<Row>, s: State, ok: bool)
    requires PollSent(s.b, sent, s.p.poll) && RowsTrue(s.b, sent, rows0, s.rows)
    ensures var t := Apply(s, PollStore(ok)); t.b == s.b && PollSent(t.b, sent, t.p.poll) && RowsTrue(t.b, sent, rows0, t.rows)
  {
    if s.p.poll.Polling? && s.p.poll.at.Storing? {
      var op := s.p.poll.at.op;
      if op.Some? && ok {
        StoredRowsTrue(s.b, sent, rows0, s.rows, op.value);
      }
      assert PollSent(s.b, sent, Polling(s.p.poll.todo, Ready));
      StoreMoves(s, ok);
    }
  }

  lemma StoreKeepsClosed(h: Sales, rows0: seq<Row>, s: State, ok: bool)
    requires ClosedInv(h, rows0, s)
    ensures ClosedInv(h, rows0, Apply(s, PollStore(ok)))
  {
    StoreTrue(h.sent, rows0, s, ok);
    if s.p.poll.Polling? && s.p.poll.at.Storing? {
      StoreMoves(s, ok);
      RowsMoveOn(h, rows0, s, PollStoreStep(s, ok));
    }
  }

  lemma StoreMoves(s: State, ok: bool)
    requires s.p.poll.Polling? && s.p.poll.at.Storing?
    ensures var t := PollStoreStep(s, ok);
      && t.b == s.b && t.p == s.p.(poll := Polling(s.p.poll.todo, Ready), events := t.p.events, inserts := t.p.inserts)
      && t.rows == if s.p.poll.at.op.Some? && ok then ApplyDb(s.rows, s.p.poll.at.op.value) else s.rows
  {
  }

  lemma RowsMoveOn(h: Sales, rows0: seq<Row>, s: State, t: State)
    requires ClosedInv(h, rows0, s)
    requires t.b == s.b && t.p.sells == s.p.sells && t.p.recon == s.p.recon && t.p.reconciled == s.p.reconciled
    requires t.p.pending == s.p.pending && PollSent(t.b, h.sent, t.p.poll) && RowsTrue(t.b, h.sent, rows0, t.rows)
    ensures ClosedInv(h, rows0, t)
  {
  }

  /** The poll moves on without touching the rows. */
  lemma PollMovesOn(h: Sales, rows0: seq<Row>, s: State, t: State)
    requires ClosedInv(h, rows0, s)
    requires t.b == s.b && t.rows == s.rows && t.p.sells == s.p.sells && t.p.recon == s.p.recon && t.p.reconciled == s.p.reconciled
    requires PendingSent(h.sent, t.p.pending) && PollSent(s.b, h.sent, t.p.poll)
    ensures ClosedInv(h, rows0, t)
  {
  }

  lemma PollLeavesFlag(s: State, st: Step)
    requires IsPollStep(st) && !st.PollStore?
    ensures var t := Apply(s, st); t.b == s.b && t.rows == s.rows && t.p.reconciled == s.p.reconciled
  {
    match st
    case PollBegin(ids) => assert PollBeginStep(s.p, ids).reconciled == s.p.reconciled;
    case PollRead(ok) => PollReadSameCalls(s.b, s.p, ok);
    case PollCommit => CommitLeavesFlag(s.p);
    case PollRecheck => assert PollRecheckStep(s.p).reconciled == s.p.reconciled;
  }

  lemma CommitLeavesFlag(p: Proc)
    ensures PollCommitStep(p).reconciled == p.reconciled
  {
    if p.poll.Polling? && p.poll.at.Seen? {
      var Seen(id, ctx, o) := p.poll.at;
      if ctx.SellCtx? { SettleSellMeets(p, id, ctx, o); } else { SettleBuyMeets(p, id, ctx, o); }
    }
  }

  lemma PollKeepsClosed(h: Sales, rows0: seq<Row>, s: State, st: Step)
    requires Inv(s) && ClosedInv(h, rows0, s) && IsPollStep(st)
    ensures ClosedInv(h, rows0, Apply(s, st))
  {
    if st.PollStore? {
      StoreKeepsClosed(h, rows0, s, st.ok);
    } else {
      PollTouches(s, st);
      PollLeavesFlag(s, st);
      if st.PollBegin? { SnapshotSent(h, s.b, s.p, st.ids); } else { PollStepSent(h.sent, s, st); }
      PollMovesOn(h, rows0, s, Apply(s, st));
    }
  }

  lemma PollStepSent(sent: map<OrderId, string>, s: State, st: Step)
    requires Inv(s) && IsPollStep(st) && !st.PollBegin? && !st.PollStore? && PollSent(s.b, sent, s.p.poll)
    ensures var q := Apply(s, st).p; (PendingSent(sent, s.p.pending) ==> PendingSent(sent, q.pending)) && PollSent(s.b, sent, q.poll)
  {
    match st
    case PollRead(ok) => ReadSent(sent, s.b, s.p, ok);
    case PollCommit => CommitSent(sent, s);
    case PollRecheck => RecheckSent(sent, s.b, s.p);
  }

  // ----- sell_option

  lemma BeginKeepsClosed(h: Sales, rows0: seq<Row>, s: State, c: Contract, reason: string)
    requires Inv(s) && ClosedInv(h, rows0, s)
    ensures ClosedInv(Noted(h, s, SellBegin(c, reason)), rows0, Apply(s, SellBegin(c, reason)))
  {
    OthersKeepClosed(h, rows0, s, Noted(h, s, SellBegin(c, reason)), Apply(s, SellBegin(c, reason)));
  }

  lemma CancelAsked(h: Sales, s: State, c: Contract, id: OrderId, ok: bool)
    requires CallsAsked(h, s.p.sells)
    ensures var t := SellCancelStep(s, c, id, ok);
      t.p == s.p.(sells := t.p.sells) && t.rows == s.rows && CallsAsked(h, t.p.sells)
  {
  }

  lemma CancelKeepsClosed(h: Sales, rows0: seq<Row>, s: State, c: Contract, id: OrderId, ok: bool)
    requires ClosedInv(h, rows0, s)
    ensures ClosedInv(h, rows0, Apply(s, SellCancel(c, id, ok)))
  {
    var t := Apply(s, SellCancel(c, id, ok));
    SellForward(s, SellCancel(c, id, ok));
    CancelAsked(h, s, c, id, ok);
    KnownForward(h.sent, s, t);
    OthersKeepClosed(h, rows0, s, h, t);
  }

  lemma SizeAsked(h: Sales, b: Broker, p: Proc, c: Contract, ok: bool)
    requires CallsAsked(h, p.sells) && PendingSent(h.sent, p.pending)
    ensures var p' := SellSizeStep(b, p, c, ok);
      && p' == p.(positions := p'.positions, pending := p'.pending, sells := p'.sells)
      && CallsAsked(h, p'.sells) && PendingSent(h.sent, p'.pending)
  {
    assert forall d :: d in WithoutContract(p.pending, c) ==> d in p.pending && WithoutContract(p.pending, c)[d] == p.pending[d];
  }

  lemma SizeKeepsClosed(h: Sales, rows0: seq<Row>, s: State, c: Contract, ok: bool)
    requires ClosedInv(h, rows0, s)
    ensures ClosedInv(h, rows0, Apply(s, SellSize(c, ok)))
  {
    var p' := SellSizeStep(s.b, s.p, c, ok);
    SizeAsked(h, s.b, s.p, c, ok);
    KnownForward(h.sent, s, s.(p := p'));
    OthersKeepClosed(h, rows0, s, h, s.(p := p'));
  }

  lemma TakenSale(h: Sales, sells: map<Contract, SellCall>, c: Contract, id: OrderId)
    requires CallsAsked(h, sells) && c in sells && id !in h.sent
    ensures CallsAsked(h.(sent := h.sent[id := h.asked[c]]), sells[c := sells[c].(at := SellSent(id))])
  {
  }

  lemma SubmitKeepsClosed(h: Sales, rows0: seq<Row>, s: State, c: Contract, id: OrderId, ok: bool)
    requires Inv(s) && ClosedInv(h, rows0, s)
    ensures ClosedInv(Noted(h, s, SellSubmit(c, id, ok)), rows0, Apply(s, SellSubmit(c, id, ok)))
  {
    var t := SellSubmitStep(s, c, id, ok);
    SellForward(s, SellSubmit(c, id, ok));
    if c in s.p.sells && s.p.sells[c].at.Sized? && ok && id !in s.b.orders {
      TakenSale(h, s.p.sells, c, id);
      OthersKeepClosed(h, rows0, s, h.(sent := h.sent[id := h.asked[c]]), t);
    } else {
      assert CallsAsked(h, t.p.sells);
      OthersKeepClosed(h, rows0, s, h, t);
    }
  }

  lemma RegisterKeepsClosed(h: Sales, rows0: seq<Row>, s: State, c: Contract)
    requires Inv(s) && ClosedInv(h, rows0, s)
    ensures ClosedInv(h, rows0, Apply(s, SellRegister(c)))
  {
    var p' := SellRegisterStep(s.p, c);
    assert PendingSent(h.sent, p'.pending);
    assert CallsAsked(h, p'.sells);
    OthersKeepClosed(h, rows0, s, h, s.(p := p'));
  }

  lemma SellKeepsClosed(h: Sales, rows0: seq<Row>, s: State, st: Step)
    requires Inv(s) && ClosedInv(h, rows0, s) && IsSellStep(st)
    ensures ClosedInv(Noted(h, s, st), rows0, Apply(s, st))
  {
    match st
    case SellBegin(c, reason) => BeginKeepsClosed(h, rows0, s, c, reason);
    case SellCancel(c, id, ok) => CancelKeepsClosed(h, rows0, s, c, id, ok);
    case SellSize(c, ok) => SizeKeepsClosed(h, rows0, s, c, ok);
    case SellSubmit(c, id, ok) => SubmitKeepsClosed(h, rows0, s, c, id, ok);
    case SellRegister(c) => RegisterKeepsClosed(h, rows0, s, c);
  }

  // ----- buy_option and the reconcile

  lemma BuyPendingSent(sent: map<OrderId, string>, s: State, st: Step)
    requires PendingSent(sent, s.p.pending) && IsBuyStep(st)
    ensures PendingSent(sent, Apply(s, st).p.pending)
    ensures Apply(s, st).rows == s.rows && Apply(s, st).p.reconciled == s.p.reconciled
  {
    if !st.BuySubmit? && !st.BuyRegister? {
      BuyCheckStepChecks(s, st);
    }
  }

  lemma BuyKeepsClosed(h: Sales, rows0: seq<Row>, s: State, st: Step)
    requires ClosedInv(h, rows0, s) && IsBuyStep(st)
    ensures ClosedInv(h, rows0, Apply(s, st))
  {
    BuyTouches(s, st);
    BuyForward(s, st);
    BuyPendingSent(h.sent, s, st);
    KnownForward(h.sent, s, Apply(s, st));
    OthersKeepClosed(h, rows0, s, h, Apply(s, st));
  }

  lemma KnownForward(sent: map<OrderId, string>, s: State, t: State)
    requires SentKnown(sent, s.b, s.p) && Forward(s.b, t.b) && t.p.recon == s.p.recon && t.p.reconciled == s.p.reconciled
    ensures SentKnown(sent, t.b, t.p)
  {
    forall i | i in sent ensures i in t.b.orders {
      assert Earlier(t.b, i, s.b.orders[i]);
    }
  }

  /** Relisting an order that was fetched as open: a SELL the process did not know is noted. */
  lemma RelistSent(h: Sales, s: State, id: OrderId, parsed: Option<Terms>)
    requires PendingSent(h.sent, s.p.pending) && s.p.recon.Registering? && id in s.p.recon.orders && id !in h.sent
    ensures PendingSent(Noted(h, s, ReconRegister(id, parsed)).sent, ReconRegisterStep(s.p, id, parsed).pending)
  {
  }

  lemma RelistKnown(h: Sales, s: State, id: OrderId, parsed: Option<Terms>)
    requires SentKnown(h.sent, s.b, s.p) && s.p.recon.Registering? && id in s.p.recon.orders && id in s.b.orders
    ensures SentKnown(Noted(h, s, ReconRegister(id, parsed)).sent, s.b, ReconRegisterStep(s.p, id, parsed))
  {
    ReconRegisters(s.p, id, parsed);
  }

  lemma RelistKeepsClosed(h: Sales, rows0: seq<Row>, s: State, id: OrderId, parsed: Option<Terms>)
    requires Inv(s) && ClosedInv(h, rows0, s)
    ensures ClosedInv(Noted(h, s, ReconRegister(id, parsed)), rows0, Apply(s, ReconRegister(id, parsed)))
  {
    if s.p.recon.Registering? && id in s.p.recon.orders {
      assert Earlier(s.b, id, s.p.recon.orders[id]);
      assert s.p.sells == map[];
      RelistSent(h, s, id, parsed);
      RelistKnown(h, s, id, parsed);
      ReconRegisters(s.p, id, parsed);
      OthersKeepClosed(h, rows0, s, Noted(h, s, ReconRegister(id, parsed)), s.(p := ReconRegisterStep(s.p, id, parsed)));
    }
  }

  lemma ReconMovesKnown(sent: map<OrderId, string>, s: State, st: Step)
    requires PhasesOk(s.p) && SentKnown(sent, s.b, s.p) && IsReconStep(st) && !st.ReconRegister?
    ensures var t := Apply(s, st); t.b == s.b && t.rows == s.rows && t.p.pending == s.p.pending && SentKnown(sent, t.b, t.p)
  {
  }

  lemma ReconMovesKeepClosed(h: Sales, rows0: seq<Row>, s: State, st: Step)
    requires Inv(s) && ClosedInv(h, rows0, s) && IsReconStep(st) && !st.ReconRegister?
    ensures ClosedInv(h, rows0, Apply(s, st))
  {
    ReconTouches(s, st);
    ReconMovesKnown(h.sent, s, st);
    OthersKeepClosed(h, rows0, s, h, Apply(s, st));
  }

  // ----- every run of one process life

  lemma StepKeepsClosed(h: Sales, rows0: seq<Row>, s: State, st: Step)
    requires Inv(s) && ClosedInv(h, rows0, s) && !st.Crash?
    ensures ClosedInv(Noted(h, s, st), rows0, Apply(s, st))
  {
    if IsPollStep(st) {
      PollKeepsClosed(h, rows0, s, st);
    } else if IsSellStep(st) {
      SellKeepsClosed(h, rows0, s, st);
    } else if IsBuyStep(st) {
      BuyKeepsClosed(h, rows0, s, st);
    } else if st.ReconRegister? {
      RelistKeepsClosed(h, rows0, s, st.id, st.parsed);
    } else if IsReconStep(st) {
      ReconMovesKeepClosed(h, rows0, s, st);
    } else {
      var t := Apply(s, st);
      AdvanceForward(s.b, st.id, st.n, st.avgPrice, st.status);
      KnownForward(h.sent, s, t);
      OthersKeepClosed(h, rows0, s, h, t);
    }
  }

  lemma {:induction false} RunKeepsClosed(h: Sales, rows0: seq<Row>, s: State, steps: seq<Step>)
    requires Inv(s) && ClosedInv(h, rows0, s) && OneLife(steps)
    ensures ClosedInv(SalesOf(h, s, steps), rows0, Run(s, steps))
    decreases |steps|
  {
    if steps != [] {
      StepKeeps(s, steps[0]);
      StepKeepsClosed(h, rows0, s, steps[0]);
      RunKeepsClosed(Noted(h, s, steps[0]), rows0, Apply(s, steps[0]), steps[1..]);
    }
  }

  /** The main result: over any run of one process life no row disappears or changes contract or terms,
      a row that was closed before is as it was, and each row closed since carries the reason a SELL of
      its contract was sold under (as its sell_option call was given it, or as the reconcile relists it)
      and the average price at which that SELL, now over, has filled. */
  lemma ClosedRowsAreTrue(b: Broker, rows: seq<Row>, steps: seq<Step>)
    requires b.NeverShort() && OneLife(steps)
    ensures var s := State(b, FRESH, rows);
      var t := Run(s, steps); RowsTrue(t.b, SalesOf(Sales(map[], map[]), s, steps).sent, rows, t.rows)
  {
    var s := State(b, FRESH, rows);
    assert RowsTrue(b, map[], rows, rows);
    assert ClosedInv(Sales(map[], map[]), rows, s);
    RunKeepsClosed(Sales(map[], map[]), rows, s, steps);
  }

  // ----- one call of check_pending_option_fills

  function Reasons(pending: map<OrderId, Ctx>): map<OrderId, string> {
    map i | i in pending && pending[i].SellCtx? :: pending[i].reason
  }

  ghost predicate NoBegin(steps: seq<Step>) {
    forall k :: 0 <= k < |steps| ==> !steps[k].PollBegin?
  }

  /** Until the next snapshot is taken, what the poll closes comes from the snapshot it has. */
  lemma StepKeepsSnapshot(sent: map<OrderId, string>, rows0: seq<Row>, s: State, st: Step)
    requires Inv(s) && PollSent(s.b, sent, s.p.poll) && RowsTrue(s.b, sent, rows0, s.rows) && !st.Crash? && !st.PollBegin?
    ensures var t := Apply(s, st); PollSent(t.b, sent, t.p.poll) && RowsTrue(t.b, sent, rows0, t.rows)
  {
    var t := Apply(s, st);
    if st.PollStore? {
      StoreTrue(sent, rows0, s, st.ok);
    } else if IsPollStep(st) {
      PollStepSent(sent, s, st);
      PollLeavesFlag(s, st);
    } else {
      StepForward(s, st);
      OtherKeeps(s, st, PollLoop);
      StepKeepsRows(s, st);
      PollStaysSent(s.b, t.b, sent, sent, s.p.poll);
      RowsStayTrue(s.b, t.b, sent, sent, rows0, s.rows);
    }
  }

  lemma StepForward(s: State, st: Step)
    requires !st.Crash? && !IsPollStep(st)
    ensures Forward(s.b, Apply(s, st).b)
  {
    if IsSellStep(st) {
      SellForward(s, st);
    } else if IsBuyStep(st) {
      BuyForward(s, st);
    } else if IsReconStep(st) {
      ReconForward(s, st);
    } else {
      AdvanceForward(s.b, st.id, st.n, st.avgPrice, st.status);
    }
  }

  lemma {:induction false} RunKeepsSnapshot(sent: map<OrderId, string>, rows0: seq<Row>, s: State, steps: seq<Step>)
    requires Inv(s) && PollSent(s.b, sent, s.p.poll) && RowsTrue(s.b, sent, rows0, s.rows) && OneLife(steps) && NoBegin(steps)
    ensures var t := Run(s, steps); RowsTrue(t.b, sent, rows0, t.rows)
    decreases |steps|
  {
    if steps != [] {
      StepKeeps(s, steps[0]);
      StepKeepsSnapshot(sent, rows0, s, steps[0]);
      RunKeepsSnapshot(sent, rows0, Apply(s, steps[0]), steps[1..]);
    }
  }

  lemma {:induction false} BeginsAreOwn(steps: seq<Step>)
    requires NoBegin(Own(steps, PollLoop))
    ensures NoBegin(steps)
  {
    if steps != [] {
      var head, rest := Head(steps[0], PollLoop), Own(steps[1..], PollLoop);
      assert forall k :: 0 <= k < |rest| ==> rest[k] == (head + rest)[|head| + k];
      assert head != [] ==> steps[0] == (head + rest)[0];
      BeginsAreOwn(steps[1..]);
    }
  }

  /** A call that takes its snapshot first and none later: what it closes, it closes as a SELL that was
      pending on entry, now over, says. */
  lemma CallClosesTruly(s: State, ids: seq<OrderId>, steps: seq<Step>)
    requires Inv(s) && s.p.poll.Idle? && OneLife(steps)
    requires steps != [] && steps[0] == PollBegin(ids) && NoBegin(Own(steps[1..], PollLoop))
    ensures var t := Run(s, steps); RowsTrue(t.b, Reasons(s.p.pending), s.rows, t.rows)
  {
    var sent := Reasons(s.p.pending);
    SnapshotSent(Sales(map[], sent), s.b, s.p, ids);
    assert RowsTrue(s.b, sent, s.rows, s.rows);
    StepKeeps(s, steps[0]);
    BeginsAreOwn(steps[1..]);
    RunKeepsSnapshot(sent, s.rows, Apply(s, steps[0]), steps[1..]);
  }
}
