/** A process from its start to its first successful reconcile, with the venue and the fill poll free to
    move between any two steps, and the reads that decide what it ends up tracking of one contract. */
module RestartReads {
  import opened Wrappers
  import opened OptionBroker
  import opened OptionProtocol
  import opened NeverShort
  import opened ExactlyOnce
  import opened ExitConservation
  import opened ThreadFrames

  // ----- the reads

  /** The venue at the last read of the positions, at the read that the entry of the contract came from
      (with the premium it was given), and at the fetch of the open orders. */
  datatype Reads = Reads(last: Broker, entered: Option<(Broker, real)>, listed: Option<Broker>)

  /** This step puts the entry of `c` into the map. */
  predicate Enters(p: Proc, c: Contract, st: Step) {
    && st.ReconRestore? && st.contract == c && st.entry.Some?
    && p.recon.Restoring? && c in p.recon.todo && c in p.recon.held && p.recon.held[c] >= 0 && c !in p.positions
  }

  function Note(h: Reads, s: State, c: Contract, st: Step): Reads {
    if st.ReconBegin? && !s.p.reconciled && s.p.recon.NotRunning? then h.(last := s.b)
    else if Enters(s.p, c, st) then h.(entered := Some((h.last, st.entry.value.1)))
    else if st == ReconOrders(true) && s.p.recon.Restoring? && s.p.recon.todo == {} then h.(listed := Some(s.b))
    else h
  }

  function ReadsOf(s: State, steps: seq<Step>, c: Contract): Reads
    decreases |steps|
  {
    if steps == [] then Reads(s.b, None, None)
    else
      var n := |steps| - 1;
      Note(ReadsOf(s, steps[..n], c), Run(s, steps[..n]), c, steps[n])
  }

  // ----- the venue

  /** `x` is the open SELL of `c`, if there is one. */
  ghost predicate TheExit(b: Broker, c: Contract, x: Option<OrderId>) {
    forall i :: (b.OpenSell(i) && b.orders[i].contract == c) <==> x == Some(i)
  }

  function Sold(b: Broker, x: Option<OrderId>): nat {
    if x.Some? && x.value in b.orders then b.orders[x.value].filled else 0
  }

  /** From `b` to `b'` orders only move forward and `c` moves through its exit order alone. */
  ghost predicate Onward(b: Broker, b': Broker, c: Contract, x: Option<OrderId>) {
    && b'.orders.Keys == b.orders.Keys
    && (forall i :: i in b.orders ==> Earlier(b', i, b.orders[i]))
    && b'.Net(c) + Sold(b', x) == b.Net(c) + Sold(b, x)
  }

  lemma OnwardOn(a: Broker, b: Broker, b': Broker, c: Contract, x: Option<OrderId>)
    requires Onward(a, b, c, x) && Onward(b, b', c, x)
    ensures Onward(a, b', c, x)
  {
    forall i | i in a.orders ensures Earlier(b', i, a.orders[i]) {
      assert Earlier(b, i, a.orders[i]) && Earlier(b', i, b.orders[i]);
    }
  }

  /** Whatever of `c` is open now was open at the start: its exit order, since no BUY was. */
  lemma OnlyExitOpen(b0: Broker, b: Broker, c: Contract, x: Option<OrderId>, i: OrderId)
    requires NoOpenBuy(b0, c) && TheExit(b0, c, x) && Onward(b0, b, c, x)
    requires i in b.orders && b.orders[i].contract == c && b.orders[i].Open()
    ensures x == Some(i) && b.OpenSell(i)
  {
    assert Earlier(b, i, b0.orders[i]);
    assert b0.OpenSell(i);
  }

  lemma AdvanceOnward(b0: Broker, b: Broker, c: Contract, x: Option<OrderId>, id: OrderId, n: nat, avgPrice: real, status: OrderStatus)
    requires NoOpenBuy(b0, c) && TheExit(b0, c, x) && Onward(b0, b, c, x)
    ensures Onward(b, b.Advance(id, n, avgPrice, status), c, x)
  {
    var b' := b.Advance(id, n, avgPrice, status);
    if b' != b && b.orders[id].contract == c {
      OnlyExitOpen(b0, b, c, x, id);
    }
    if x.Some? {
      assert Earlier(b, x.value, b0.orders[x.value]);
    }
  }

  // ----- what holds of `c` until the reconcile succeeds

  ghost predicate Listed(h: Reads, x: Option<OrderId>) {
    x.Some? && h.listed.Some? && x.value in h.listed.value.orders && h.listed.value.orders[x.value].Open()
  }

  /** The exit order was listed, registered, and then settled by the fill poll. */
  ghost predicate ExitSettled(p: Proc, h: Reads, x: Option<OrderId>) {
    Listed(h, x) && x.value !in p.pending && !(p.recon.Registering? && x.value in p.recon.orders)
  }

  function EnteredQty(h: Reads, c: Contract): int {
    if h.entered.Some? then h.entered.value.0.Net(c) else 0
  }

  function LessFilled(qty: int, filled: int): nat {
    if qty > filled then qty - filled else 0
  }

  ghost predicate Venues(b0: Broker, b: Broker, h: Reads, c: Contract, x: Option<OrderId>) {
    && Onward(b0, b, c, x) && Onward(b0, h.last, c, x) && Onward(h.last, b, c, x)
    && (h.entered.Some? ==> Onward(b0, h.entered.value.0, c, x) && Onward(h.entered.value.0, b, c, x) && h.entered.value.0.Net(c) > 0)
    && (h.listed.Some? ==> Onward(b0, h.listed.value, c, x) && Onward(h.listed.value, b, c, x))
  }

  ghost predicate AsRead(recon: Recon, h: Reads) {
    match recon
    case NotRunning => h.listed.None?
    case ReadPositions(held) => h.listed.None? && held == HeldContracts(h.last)
    case Restoring(held, _, _) => h.listed.None? && held == HeldContracts(h.last)
    case Registering(orders, _) => h.listed.Some? && forall i :: i in orders ==> i in OpenOrders(h.listed.value) && orders[i] == h.listed.value.orders[i]
  }

  /** Of `c` nothing but its listed exit order is pending or polled. */
  ghost predicate IsExit(h: Reads, x: Option<OrderId>, c: Contract, id: OrderId, ctx: Ctx) {
    ctx.contract == c ==> x == Some(id) && ctx.SellCtx? && Listed(h, x)
  }

  ghost predicate ExitPends(pending: Pending, h: Reads, c: Contract, x: Option<OrderId>) {
    forall i :: i in pending ==> IsExit(h, x, c, i, pending[i])
  }

  ghost predicate ExitPolled(poll: Poll, h: Reads, c: Contract, x: Option<OrderId>) {
    && (poll.Polling? ==> forall k :: 0 <= k < |poll.todo| ==> IsExit(h, x, c, poll.todo[k].0, poll.todo[k].1))
    && (poll.Polling? && poll.at.Seen? ==> IsExit(h, x, c, poll.at.id, poll.at.ctx))
    && NoOpening(poll, c)
  }

  ghost predicate AsEntered(positions: Positions, h: Reads, c: Contract) {
    && Tracked(positions, c) == EnteredQty(h, c)
    && (c in positions ==> positions[c].qty > 0 && h.entered.Some? && positions[c].entryPremium == h.entered.value.1)
  }

  /** What is tracked of `c`: what was read, less the exit order's fills once the poll has settled it. */
  ghost predicate TrackedAsRead(b: Broker, p: Proc, h: Reads, c: Contract, x: Option<OrderId>) {
    && Tracked(p.positions, c) == (if ExitSettled(p, h, x) then LessFilled(EnteredQty(h, c), Sold(b, x)) else EnteredQty(h, c))
    && (c in p.positions ==> p.positions[c].qty > 0 && h.entered.Some? && p.positions[c].entryPremium == h.entered.value.1)
    && (ExitSettled(p, h, x) ==> x.value in b.orders && !b.orders[x.value].Open())
  }

  ghost predicate Rereading(b0: Broker, s: State, h: Reads, c: Contract, x: Option<OrderId>) {
    && !s.p.reconciled
    && NoOpenBuy(b0, c) && TheExit(b0, c, x) && Venues(b0, s.b, h, c, x)
    && AsRead(s.p.recon, h)
    && ExitPends(s.p.pending, h, c, x) && ExitPolled(s.p.poll, h, c, x)
    && TrackedAsRead(s.b, s.p, h, c, x)
  }

  // ----- the steps

  lemma ExitAtVenue(b0: Broker, b: Broker, c: Contract, x: Option<OrderId>)
    requires TheExit(b0, c, x) && Onward(b0, b, c, x) && x.Some?
    ensures x.value in b.orders && b.orders[x.value].side == Sell && b.orders[x.value].contract == c
  {
    assert b0.OpenSell(x.value) && Earlier(b, x.value, b0.orders[x.value]);
  }

  lemma VenuesMove(b0: Broker, b: Broker, b': Broker, h: Reads, c: Contract, x: Option<OrderId>)
    requires Venues(b0, b, h, c, x) && Onward(b, b', c, x)
    ensures Venues(b0, b', h, c, x)
  {
    OnwardOn(b0, b, b', c, x);
    OnwardOn(h.last, b, b', c, x);
    if h.entered.Some? { OnwardOn(h.entered.value.0, b, b', c, x); }
    if h.listed.Some? { OnwardOn(h.listed.value, b, b', c, x); }
  }

  lemma AdvanceRereads(b0: Broker, s: State, h: Reads, c: Contract, x: Option<OrderId>, id: OrderId, n: nat, avgPrice: real, status: OrderStatus)
    requires Rereading(b0, s, h, c, x)
    ensures Rereading(b0, Apply(s, BrokerAdvance(id, n, avgPrice, status)), h, c, x)
  {
    var b' := s.b.Advance(id, n, avgPrice, status);
    AdvanceOnward(b0, s.b, c, x, id, n, avgPrice, status);
    VenuesMove(b0, s.b, b', h, c, x);
    assert ExitSettled(s.p, h, x) ==> b'.orders[x.value] == s.b.orders[x.value];
  }

  /** The poll moves, and nothing in the maps. */
  lemma PollMoves(b0: Broker, s: State, h: Reads, c: Contract, x: Option<OrderId>, t: State)
    requires Rereading(b0, s, h, c, x) && t.b == s.b
    requires t.p == s.p.(poll := t.p.poll, events := t.p.events, inserts := t.p.inserts)
    requires ExitPolled(t.p.poll, h, c, x)
    ensures Rereading(b0, t, h, c, x)
  {
  }

  lemma BeginsPolling(p: Proc, h: Reads, c: Contract, x: Option<OrderId>, ids: seq<OrderId>)
    requires ExitPends(p.pending, h, c, x) && ExitPolled(p.poll, h, c, x)
    ensures var p' := PollBeginStep(p, ids); p' == p.(poll := p'.poll) && ExitPolled(p'.poll, h, c, x)
  {
  }

  lemma ReadsPolled(b: Broker, p: Proc, h: Reads, c: Contract, x: Option<OrderId>, ok: bool)
    requires PollNamed(b, p.poll) && ExitPolled(p.poll, h, c, x)
    ensures var p' := PollReadStep(b, p, ok); p' == p.(poll := p'.poll) && ExitPolled(p'.poll, h, c, x)
  {
    if p.poll.Polling? && p.poll.at.Ready? && p.poll.todo != [] {
      assert Names(b, p.poll.todo[0].0, p.poll.todo[0].1);
    }
  }

  /** All but its commit leave the maps alone. */
  lemma OnlyPolls(s: State, h: Reads, c: Contract, x: Option<OrderId>, st: Step)
    requires ExitPends(s.p.pending, h, c, x) && ExitPolled(s.p.poll, h, c, x) && PollNamed(s.b, s.p.poll)
    requires IsPollStep(st) && !st.PollCommit?
    ensures var t := Apply(s, st);
      t.b == s.b && t.p == s.p.(poll := t.p.poll, events := t.p.events, inserts := t.p.inserts) && ExitPolled(t.p.poll, h, c, x)
  {
    match st
    case PollBegin(ids) => BeginsPolling(s.p, h, c, x, ids);
    case PollRead(ok) => ReadsPolled(s.b, s.p, h, c, x, ok);
    case _ =>
  }

  lemma PollRereads(b0: Broker, s: State, h: Reads, c: Contract, x: Option<OrderId>, st: Step)
    requires Rereading(b0, s, h, c, x) && PollNamed(s.b, s.p.poll) && IsPollStep(st) && !st.PollCommit?
    ensures Rereading(b0, Apply(s, st), h, c, x)
  {
    OnlyPolls(s, h, c, x, st);
    PollMoves(b0, s, h, c, x, Apply(s, st));
  }

  // the poll settles an order

  lemma SettlesFully(b: Broker, p: Proc, h: Reads, c: Contract, id: OrderId, ctx: Ctx, o: Order)
    requires p.poll.Polling? && p.poll.at == Seen(id, ctx, o) && ctx.SellCtx? && ctx.contract == c && !o.Open() && id in p.pending
    requires AsEntered(p.positions, h, c) && ExitPolled(p.poll, h, c, Some(id))
    ensures var p' := SettleSell(p, id, ctx, o);
      && p' == p.(positions := p'.positions, pending := p.pending - {id}, poll := p'.poll)
      && Tracked(p'.positions, c) == LessFilled(EnteredQty(h, c), o.filled)
      && (c in p'.positions ==> p'.positions[c].qty > 0 && h.entered.Some? && p'.positions[c].entryPremium == h.entered.value.1)
      && ExitPolled(p'.poll, h, c, Some(id))
  {
  }

  lemma SettleExit(b0: Broker, s: State, h: Reads, c: Contract, id: OrderId, ctx: Ctx, o: Order)
    requires Rereading(b0, s, h, c, Some(id)) && s.p.poll.Polling? && s.p.poll.at == Seen(id, ctx, o) && ctx.contract == c
    requires Earlier(s.b, id, o) && !o.Open() && id in s.p.pending && (s.p.recon.Registering? ==> id !in s.p.recon.orders)
    ensures Rereading(b0, Apply(s, PollCommit), h, c, Some(id))
  {
    assert IsExit(h, Some(id), c, id, ctx);
    assert !ExitSettled(s.p, h, Some(id));
    SettlesFully(s.b, s.p, h, c, id, ctx, o);
    var p' := SettleSell(s.p, id, ctx, o);
    assert ExitSettled(p', h, Some(id));
    assert Rereading(b0, s.(p := p'), h, c, Some(id));
  }

  lemma SettleElsewhere(b0: Broker, s: State, h: Reads, c: Contract, x: Option<OrderId>, id: OrderId, p': Proc)
    requires Rereading(b0, s, h, c, x) && s.p.poll.Polling? && SettlesElsewhere(s.p, p', c, id)
    requires p'.poll.Polling? && p'.poll.todo == s.p.poll.todo && !p'.poll.at.Seen?
    requires x.Some? ==> (x.value in p'.pending <==> x.value in s.p.pending)
    ensures Rereading(b0, s.(p := p'), h, c, x)
  {
    assert ExitSettled(p', h, x) <==> ExitSettled(s.p, h, x);
    forall i | i in p'.pending ensures IsExit(h, x, c, i, p'.pending[i]) {
      assert i in s.p.pending ==> IsExit(h, x, c, i, s.p.pending[i]);
    }
  }

  lemma CommitLeavesSeen(p: Proc)
    requires p.poll.Polling? && p.poll.at.Seen?
    ensures var p' := PollCommitStep(p); p'.poll.Polling? && p'.poll.todo == p.poll.todo && !p'.poll.at.Seen?
  {
    if p.poll.at.ctx.SellCtx? {
      assert PollCommitStep(p) == SettleSell(p, p.poll.at.id, p.poll.at.ctx, p.poll.at.order);
    } else {
      assert PollCommitStep(p) == SettleBuy(p, p.poll.at.id, p.poll.at.ctx, p.poll.at.order);
    }
  }

  /** Of an exit order still open, or no longer pending, the commit takes nothing over. */
  lemma TakesNothingOver(p: Proc, id: OrderId, ctx: Ctx, o: Order)
    requires p.poll.Polling? && p.poll.at == Seen(id, ctx, o) && ctx.SellCtx? && (o.Open() || id !in p.pending)
    ensures var p' := PollCommitStep(p);
      p' == p.(poll := p'.poll) && (p'.poll.at.Storing? ==> p'.poll.at.op.None?) && !p'.poll.at.Opening?
  {
    assert id !in p.pending ==> p.pending - {id} == p.pending;
  }

  lemma CommitExit(b0: Broker, s: State, h: Reads, c: Contract, x: Option<OrderId>, id: OrderId, ctx: Ctx, o: Order)
    requires Rereading(b0, s, h, c, x) && s.p.poll.Polling? && s.p.poll.at == Seen(id, ctx, o) && ctx.contract == c
    requires Earlier(s.b, id, o) && (s.p.recon.Registering? && id in s.p.pending ==> id !in s.p.recon.orders)
    ensures Rereading(b0, Apply(s, PollCommit), h, c, x)
  {
    assert IsExit(h, x, c, id, ctx);
    if !o.Open() && id in s.p.pending {
      SettleExit(b0, s, h, c, id, ctx, o);
    } else {
      TakesNothingOver(s.p, id, ctx, o);
      CommitLeavesSeen(s.p);
      PollMoves(b0, s, h, c, x, Apply(s, PollCommit));
    }
  }

  lemma CommitOther(b0: Broker, s: State, h: Reads, c: Contract, x: Option<OrderId>, id: OrderId, ctx: Ctx, o: Order)
    requires Rereading(b0, s, h, c, x) && s.p.poll.Polling? && s.p.poll.at == Seen(id, ctx, o) && ctx.contract != c
    requires Names(s.b, id, ctx) && PendingNamed(s.b, s.p.pending)
    ensures Rereading(b0, Apply(s, PollCommit), h, c, x)
  {
    assert id in s.p.pending ==> Names(s.b, id, s.p.pending[id]);
    SettleFrame(s.p, c, id, ctx, o);
    OtherStays(b0, s, h, c, x, id, ctx);
    CommitLeavesSeen(s.p);
    SettleElsewhere(b0, s, h, c, x, id, PollCommitStep(s.p));
  }

  lemma CommitRereads(b0: Broker, s: State, h: Reads, c: Contract, x: Option<OrderId>)
    requires Rereading(b0, s, h, c, x) && Inv(s) && OnceInv(s)
    ensures Rereading(b0, Apply(s, PollCommit), h, c, x)
  {
    if s.p.poll.Polling? && s.p.poll.at.Seen? {
      var id, ctx, o := s.p.poll.at.id, s.p.poll.at.ctx, s.p.poll.at.order;
      assert Names(s.b, id, ctx) && Earlier(s.b, id, o);
      if ctx.contract == c {
        assert id in s.p.pending ==> Met(EventIds(s.p.events), s.p.pending, s.p.poll, id);
        CommitExit(b0, s, h, c, x, id, ctx, o);
      } else {
        CommitOther(b0, s, h, c, x, id, ctx, o);
      }
    }
  }

  lemma OtherStays(b0: Broker, s: State, h: Reads, c: Contract, x: Option<OrderId>, id: OrderId, ctx: Ctx)
    requires TheExit(b0, c, x) && Onward(b0, s.b, c, x) && Names(s.b, id, ctx) && ctx.contract != c
    requires SettlesElsewhere(s.p, PollCommitStep(s.p), c, id)
    ensures x.Some? ==> (x.value in PollCommitStep(s.p).pending <==> x.value in s.p.pending)
  {
    if x.Some? {
      ExitAtVenue(b0, s.b, c, x);
    }
  }

  // the reconcile

  /** Of the reads only those of the positions change: the order list is not fetched yet. */
  lemma ReadsMove(b0: Broker, s: State, h: Reads, c: Contract, x: Option<OrderId>, p': Proc, h': Reads)
    requires Rereading(b0, s, h, c, x) && h.listed.None? && h'.listed.None?
    requires p' == s.p.(recon := p'.recon, positions := p'.positions) && !p'.recon.Registering?
    requires Venues(b0, s.b, h', c, x) && AsRead(p'.recon, h') && AsEntered(p'.positions, h', c)
    ensures Rereading(b0, s.(p := p'), h', c, x)
  {
  }

  lemma Unlisted(s: State, h: Reads, c: Contract, x: Option<OrderId>)
    requires AsRead(s.p.recon, h) && TrackedAsRead(s.b, s.p, h, c, x) && !s.p.recon.Registering?
    ensures h.listed.None? && AsEntered(s.p.positions, h, c)
  {
  }

  lemma OnwardSelf(b: Broker, c: Contract, x: Option<OrderId>)
    ensures Onward(b, b, c, x)
  {
  }

  lemma BeginRereads(b0: Broker, s: State, h: Reads, c: Contract, x: Option<OrderId>)
    requires Rereading(b0, s, h, c, x)
    ensures Rereading(b0, Apply(s, ReconBegin), Note(h, s, c, ReconBegin), c, x)
  {
    if s.p.recon.NotRunning? {
      var p' := s.p.(recon := ReadPositions(HeldContracts(s.b)));
      Unlisted(s, h, c, x);
      OnwardSelf(s.b, c, x);
      assert Venues(b0, s.b, h.(last := s.b), c, x) && AsRead(p'.recon, h.(last := s.b));
      ReadsMove(b0, s, h, c, x, p', h.(last := s.b));
    }
  }

  lemma RowsReread(b0: Broker, s: State, h: Reads, c: Contract, x: Option<OrderId>, ok: bool)
    requires Rereading(b0, s, h, c, x)
    ensures Rereading(b0, Apply(s, ReconRows(ok)), h, c, x)
  {
    if s.p.recon.ReadPositions? {
      Unlisted(s, h, c, x);
      ReadsMove(b0, s, h, c, x, ReconRowsStep(s, ok), h);
    }
  }

  lemma Restores(p: Proc, h: Reads, c: Contract, d: Contract, entry: Option<(Terms, real)>)
    requires p.recon.Restoring? && AsRead(p.recon, h) && AsEntered(p.positions, h, c)
    ensures var p' := ReconRestoreStep(p, d, entry); var st := ReconRestore(d, entry);
      var h' := if Enters(p, c, st) then h.(entered := Some((h.last, entry.value.1))) else h;
      && p' == p.(recon := p'.recon, positions := p'.positions) && p'.recon.Restoring?
      && AsRead(p'.recon, h') && AsEntered(p'.positions, h', c) && (Enters(p, c, st) ==> h.last.Net(c) > 0)
  {
    if d in p.recon.held {
      assert p.recon.held[d] == h.last.Net(d) != 0;
    }
  }

  lemma RestoreRereads(b0: Broker, s: State, h: Reads, c: Contract, x: Option<OrderId>, d: Contract, entry: Option<(Terms, real)>)
    requires Rereading(b0, s, h, c, x)
    ensures Rereading(b0, Apply(s, ReconRestore(d, entry)), Note(h, s, c, ReconRestore(d, entry)), c, x)
  {
    if s.p.recon.Restoring? {
      Unlisted(s, h, c, x);
      Restores(s.p, h, c, d, entry);
      ReadsMove(b0, s, h, c, x, ReconRestoreStep(s.p, d, entry), Note(h, s, c, ReconRestore(d, entry)));
    }
  }

  lemma ListedNow(b0: Broker, s: State, h: Reads, c: Contract, x: Option<OrderId>, openRows: set<Contract>)
    requires Rereading(b0, s, h, c, x) && h.listed.None? && !s.p.recon.Registering?
    ensures Rereading(b0, s.(p := s.p.(recon := Registering(OpenOrders(s.b), openRows))), h.(listed := Some(s.b)), c, x)
  {
    OnwardSelf(s.b, c, x);
  }

  lemma OrdersReread(b0: Broker, s: State, h: Reads, c: Contract, x: Option<OrderId>, ok: bool)
    requires Rereading(b0, s, h, c, x)
    ensures Rereading(b0, Apply(s, ReconOrders(ok)), Note(h, s, c, ReconOrders(ok)), c, x)
  {
    if s.p.recon.Restoring? {
      Unlisted(s, h, c, x);
      if !ok {
        ReadsMove(b0, s, h, c, x, s.p.(recon := NotRunning), h);
      } else if s.p.recon.todo == {} {
        ListedNow(b0, s, h, c, x, s.p.recon.openRows);
      }
    }
  }

  /** Registering the exit order makes it pending, or leaves it so; registering another leaves it be. */
  lemma RegistersExit(p: Proc, h: Reads, c: Contract, x: Option<OrderId>, id: OrderId, parsed: Option<Terms>)
    requires p.recon.Registering? && id in p.recon.orders && AsRead(p.recon, h) && ExitPends(p.pending, h, c, x)
    requires p.recon.orders[id].contract == c <==> x == Some(id)
    requires x == Some(id) ==> p.recon.orders[id].side == Sell
    ensures var p' := ReconRegisterStep(p, id, parsed);
      p' == p.(pending := p'.pending, recon := p'.recon) && AsRead(p'.recon, h) && ExitPends(p'.pending, h, c, x)
  {
    var p' := ReconRegisterStep(p, id, parsed);
    forall i | i in p'.pending ensures IsExit(h, x, c, i, p'.pending[i]) {
      assert i in p.pending ==> IsExit(h, x, c, i, p.pending[i]);
    }
  }

  lemma RegistersSettled(p: Proc, h: Reads, x: Option<OrderId>, id: OrderId, parsed: Option<Terms>)
    requires p.recon.Registering? && id in p.recon.orders
    requires x == Some(id) ==> p.recon.orders[id].side == Sell
    ensures ExitSettled(ReconRegisterStep(p, id, parsed), h, x) <==> ExitSettled(p, h, x)
  {
  }

  lemma RegisterMoves(b0: Broker, s: State, h: Reads, c: Contract, x: Option<OrderId>, p': Proc)
    requires Rereading(b0, s, h, c, x) && p' == s.p.(pending := p'.pending, recon := p'.recon)
    requires AsRead(p'.recon, h) && ExitPends(p'.pending, h, c, x) && (ExitSettled(p', h, x) <==> ExitSettled(s.p, h, x))
    ensures Rereading(b0, s.(p := p'), h, c, x)
  {
  }

  lemma ListedExit(b0: Broker, recon: Recon, h: Reads, c: Contract, x: Option<OrderId>, id: OrderId)
    requires NoOpenBuy(b0, c) && TheExit(b0, c, x) && AsRead(recon, h) && recon.Registering? && id in recon.orders
    requires Onward(b0, h.listed.value, c, x)
    ensures recon.orders[id].contract == c <==> x == Some(id)
    ensures x == Some(id) ==> recon.orders[id].side == Sell
  {
    if recon.orders[id].contract == c {
      OnlyExitOpen(b0, h.listed.value, c, x, id);
    }
    if x == Some(id) {
      ExitAtVenue(b0, h.listed.value, c, x);
    }
  }

  lemma RegisterReads(b0: Broker, s: State, h: Reads, c: Contract, x: Option<OrderId>, id: OrderId, parsed: Option<Terms>)
    requires Rereading(b0, s, h, c, x) && s.p.recon.Registering? && id in s.p.recon.orders
    ensures var p' := ReconRegisterStep(s.p, id, parsed);
      && p' == s.p.(pending := p'.pending, recon := p'.recon)
      && AsRead(p'.recon, h) && ExitPends(p'.pending, h, c, x) && (ExitSettled(p', h, x) <==> ExitSettled(s.p, h, x))
  {
    ListedExit(b0, s.p.recon, h, c, x, id);
    RegistersExit(s.p, h, c, x, id, parsed);
    RegistersSettled(s.p, h, x, id, parsed);
  }

  lemma RegisterRereads(b0: Broker, s: State, h: Reads, c: Contract, x: Option<OrderId>, id: OrderId, parsed: Option<Terms>)
    requires Rereading(b0, s, h, c, x)
    ensures Rereading(b0, Apply(s, ReconRegister(id, parsed)), h, c, x)
  {
    if s.p.recon.Registering? && id in s.p.recon.orders {
      RegisterReads(b0, s, h, c, x, id, parsed);
      RegisterMoves(b0, s, h, c, x, ReconRegisterStep(s.p, id, parsed));
    } else {
      assert ReconRegisterStep(s.p, id, parsed) == s.p;
    }
  }

  // ----- every run up to the success

  /** The step that sets the flag. */
  ghost predicate Finishes(p: Proc, st: Step) {
    st.ReconFinish? && p.recon.Registering? && p.recon.orders == map[]
  }

  lemma CallsIdle(s: State, st: Step)
    requires PhasesOk(s.p) && !s.p.reconciled && (IsBuyStep(st) || IsSellStep(st))
    ensures Apply(s, st) == s
  {
    assert s.p.buys == map[] && s.p.sells == map[];
  }

  lemma ReconRereads(b0: Broker, s: State, h: Reads, c: Contract, x: Option<OrderId>, st: Step)
    requires Rereading(b0, s, h, c, x) && IsReconStep(st) && !Finishes(s.p, st)
    ensures Rereading(b0, Apply(s, st), Note(h, s, c, st), c, x)
  {
    match st
    case ReconBegin => BeginRereads(b0, s, h, c, x);
    case ReconRows(ok) => RowsReread(b0, s, h, c, x, ok);
    case ReconRestore(d, entry) => RestoreRereads(b0, s, h, c, x, d, entry);
    case ReconOrders(ok) => OrdersReread(b0, s, h, c, x, ok);
    case ReconRegister(id, parsed) => RegisterRereads(b0, s, h, c, x, id, parsed);
    case ReconFinish =>
  }

  lemma NotesReads(h: Reads, s: State, c: Contract, st: Step)
    requires !IsReconStep(st)
    ensures Note(h, s, c, st) == h
  {
  }

  lemma PollStepRereads(b0: Broker, s: State, h: Reads, c: Contract, x: Option<OrderId>, st: Step)
    requires Rereading(b0, s, h, c, x) && Inv(s) && OnceInv(s) && IsPollStep(st)
    ensures Rereading(b0, Apply(s, st), h, c, x)
  {
    if st.PollCommit? { CommitRereads(b0, s, h, c, x); } else { PollRereads(b0, s, h, c, x, st); }
  }

  lemma StepRereads(b0: Broker, s: State, h: Reads, c: Contract, x: Option<OrderId>, st: Step)
    requires Rereading(b0, s, h, c, x) && Inv(s) && OnceInv(s) && !st.Crash? && !Finishes(s.p, st)
    ensures Rereading(b0, Apply(s, st), Note(h, s, c, st), c, x)
  {
    if IsReconStep(st) {
      ReconRereads(b0, s, h, c, x, st);
    } else {
      NotesReads(h, s, c, st);
      if IsPollStep(st) {
        PollStepRereads(b0, s, h, c, x, st);
      } else if st.BrokerAdvance? {
        AdvanceRereads(b0, s, h, c, x, st.id, st.n, st.avgPrice, st.status);
      } else {
        CallsIdle(s, st);
      }
    }
  }

  lemma StartsRereading(b0: Broker, rows: seq<Row>, c: Contract, x: Option<OrderId>)
    requires NoOpenBuy(b0, c) && TheExit(b0, c, x)
    ensures Rereading(b0, State(b0, FRESH, rows), Reads(b0, None, None), c, x)
  {
    assert forall i :: i in b0.orders ==> Earlier(b0, i, b0.orders[i]);
  }

  lemma SettleFlag(p: Proc, id: OrderId, ctx: Ctx, o: Order)
    requires p.poll.Polling?
    ensures ctx.SellCtx? ==> SettleSell(p, id, ctx, o).reconciled == p.reconciled
    ensures ctx.BuyCtx? ==> SettleBuy(p, id, ctx, o).reconciled == p.reconciled
  {
  }

  lemma CommitFlag(p: Proc)
    ensures PollCommitStep(p).reconciled == p.reconciled
  {
    if p.poll.Polling? && p.poll.at.Seen? {
      SettleFlag(p, p.poll.at.id, p.poll.at.ctx, p.poll.at.order);
    }
  }

  lemma PollFlag(s: State, st: Step)
    requires IsPollStep(st)
    ensures Apply(s, st).p.reconciled == s.p.reconciled
  {
    if st.PollCommit? {
      CommitFlag(s.p);
    }
  }

  lemma BuyFlag(s: State, st: Step)
    requires IsBuyStep(st)
    ensures Apply(s, st).p.reconciled == s.p.reconciled
  {
  }

  lemma SellFlag(s: State, st: Step)
    requires IsSellStep(st)
    ensures Apply(s, st).p.reconciled == s.p.reconciled
  {
  }

  lemma RegisterFlag(p: Proc, id: OrderId, parsed: Option<Terms>)
    ensures ReconRegisterStep(p, id, parsed).reconciled == p.reconciled
  {
  }

  lemma ReconFlag(s: State, st: Step)
    requires IsReconStep(st)
    ensures Apply(s, st).p.reconciled <==> s.p.reconciled || Finishes(s.p, st)
  {
    if st.ReconRegister? {
      RegisterFlag(s.p, st.id, st.parsed);
    }
  }

  /** Only the finish of a reconcile sets the flag, and within a process life nothing clears it. */
  lemma FlagMoves(s: State, st: Step)
    requires !st.Crash?
    ensures Apply(s, st).p.reconciled <==> s.p.reconciled || Finishes(s.p, st)
  {
    if IsPollStep(st) {
      PollFlag(s, st);
    } else if IsBuyStep(st) {
      BuyFlag(s, st);
    } else if IsSellStep(st) {
      SellFlag(s, st);
    } else if IsReconStep(st) {
      ReconFlag(s, st);
    }
  }

  lemma UnflaggedBefore(s: State, steps: seq<Step>)
    requires steps != [] && OneLife(steps) && !Run(s, steps).p.reconciled
    ensures var init, last := steps[..|steps| - 1], steps[|steps| - 1];
      && OneLife(init) && !last.Crash? && Run(s, steps) == Apply(Run(s, init), last)
      && !Run(s, init).p.reconciled && !Finishes(Run(s, init).p, last)
  {
    var init, last := steps[..|steps| - 1], steps[|steps| - 1];
    assert steps == init + [last];
    RunSnoc(s, init, last);
    FlagMoves(Run(s, init), last);
  }

  /** Up to the first success every run of a process that has just started rereads `c`. */
  lemma {:induction false} RunRereads(b0: Broker, rows: seq<Row>, steps: seq<Step>, c: Contract, x: Option<OrderId>)
    requires b0.NeverShort() && NoOpenBuy(b0, c) && TheExit(b0, c, x) && OneLife(steps)
    requires !Run(State(b0, FRESH, rows), steps).p.reconciled
    ensures var s := State(b0, FRESH, rows);
      Rereading(b0, Run(s, steps), ReadsOf(s, steps, c), c, x) && Inv(Run(s, steps)) && OnceInv(Run(s, steps))
    decreases |steps|
  {
    var s := State(b0, FRESH, rows);
    RunKeepsOnce(s, steps);
    if steps == [] {
      StartsRereading(b0, rows, c, x);
    } else {
      var init, last := steps[..|steps| - 1], steps[|steps| - 1];
      UnflaggedBefore(s, steps);
      RunRereads(b0, rows, init, c, x);
      StepRereads(b0, Run(s, init), ReadsOf(s, init, c), c, x, last);
    }
  }
}
