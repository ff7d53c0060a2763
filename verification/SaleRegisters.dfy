/** What a submitted sale does to the BUYs it cancelled: their entries go, every other entry stays, and
    the poll never again acts on them. */
module SaleRegisters {
  import opened Wrappers
  import opened OptionBroker
  import opened OptionProtocol
  import opened NeverShort
  import opened ExactlyOnce
  import opened ThreadFrames

  // ----- who takes an entry out of the pending map

  /** The poll has read `i` as finished, and is at its lock. */
  ghost predicate PolledOver(s: State, st: Step, i: OrderId) {
    st.PollCommit? && s.p.poll.Polling? && s.p.poll.at.Seen? && s.p.poll.at.id == i
    && i in s.b.orders && !s.b.orders[i].Open()
  }

  /** The sell_option call for the contract of `i` finds nothing to sell. */
  predicate DroppedEmpty(s: State, st: Step, c: Contract) {
    st == SellSize(c, true) && c in s.p.sells && s.p.sells[c].at == Cancelling({}) && s.b.Net(c) <= 0
  }

  /** The sell_option call that had `i` cancelled registers its SELL. */
  predicate DroppedCancelled(s: State, st: Step, c: Contract, i: OrderId) {
    st == SellRegister(c) && c in s.p.sells && s.p.sells[c].at.SellSent? && i in s.p.sells[c].canceled
  }

  lemma ReadDropsNothing(s: State, ok: bool)
    requires PollNamed(s.b, s.p.poll)
    ensures PollReadStep(s.b, s.p, ok).pending == s.p.pending
  {
    if s.p.poll.Polling? && s.p.poll.at.Ready? && s.p.poll.todo != [] {
      assert Names(s.b, s.p.poll.todo[0].0, s.p.poll.todo[0].1);
    }
  }

  lemma CommitDropsOver(s: State, i: OrderId)
    requires PollNamed(s.b, s.p.poll) && i in s.p.pending && i !in PollCommitStep(s.p).pending
    ensures PolledOver(s, PollCommit, i)
  {
    var Seen(id, ctx, o) := s.p.poll.at;
    if ctx.SellCtx? { SellDropsOver(s.p, id, ctx, o, i); } else { BuyDropsOver(s.p, id, ctx, o, i); }
  }

  lemma SellDropsOver(p: Proc, id: OrderId, ctx: Ctx, o: Order, i: OrderId)
    requires p.poll.Polling? && ctx.SellCtx? && i in p.pending && i !in SettleSell(p, id, ctx, o).pending
    ensures i == id && !o.Open()
  {
  }

  lemma BuyDropsOver(p: Proc, id: OrderId, ctx: Ctx, o: Order, i: OrderId)
    requires p.poll.Polling? && ctx.BuyCtx? && i in p.pending && i !in SettleBuy(p, id, ctx, o).pending
    ensures i == id && !o.Open()
  {
  }

  lemma PollDropsOver(s: State, st: Step, i: OrderId)
    requires PollNamed(s.b, s.p.poll) && IsPollStep(st) && i in s.p.pending && i !in Apply(s, st).p.pending
    ensures PolledOver(s, st, i)
  {
    match st
    case PollRead(ok) => ReadDropsNothing(s, ok);
    case PollCommit => CommitDropsOver(s, i);
    case _ =>
  }

  lemma SellDrops(s: State, st: Step, i: OrderId)
    requires IsSellStep(st) && i in s.p.pending && i !in Apply(s, st).p.pending
    ensures (DroppedEmpty(s, st, st.contract) && s.p.pending[i].contract == st.contract) || DroppedCancelled(s, st, st.contract, i)
  {
    match st
    case SellSize(c, ok) =>
    case SellRegister(c) =>
    case _ =>
  }

  lemma RelistDropsNothing(p: Proc, id: OrderId, parsed: Option<Terms>)
    ensures forall i :: i in p.pending ==> i in ReconRegisterStep(p, id, parsed).pending
  {
  }

  lemma OthersDropNothing(s: State, st: Step)
    requires IsBuyStep(st) || IsReconStep(st)
    ensures forall i :: i in s.p.pending ==> i in Apply(s, st).p.pending
  {
    if st.ReconRegister? {
      RelistDropsNothing(s.p, st.id, st.parsed);
    } else if IsBuyStep(st) && !st.BuySubmit? && !st.BuyRegister? {
      BuyCheckStepChecks(s, st);
    }
  }

  /** An entry leaves the pending map in three ways only: its poll finds the order over, the sale of its
      contract finds nothing to sell, or a sale that had it cancelled is registered. */
  lemma PendingLeaves(s: State, st: Step, i: OrderId)
    requires Inv(s) && !st.Crash? && i in s.p.pending && i !in Apply(s, st).p.pending
    ensures var c := s.p.pending[i].contract; PolledOver(s, st, i) || DroppedEmpty(s, st, c) || DroppedCancelled(s, st, c, i)
  {
    assert Names(s.b, i, s.p.pending[i]);
    if IsPollStep(st) {
      PollDropsOver(s, st, i);
    } else if IsSellStep(st) {
      SellDrops(s, st, i);
      var c := st.contract;
      if DroppedCancelled(s, st, c, i) {
        assert SellCallOk(s.b, s.p.pending, c, s.p.sells[c]);
      }
    } else if IsBuyStep(st) || IsReconStep(st) {
      OthersDropNothing(s, st);
    }
  }

  // ----- the cancels a sale has had confirmed

  predicate Enters(s: State, c: Contract, st: Step) {
    st.SellBegin? && st.contract == c && MaySell(s.p, c) && !SellPending(s.p.pending, c)
  }

  /** The venue confirms the cancel of `st.id` to the sell_option call for `c`. */
  predicate Confirms(s: State, c: Contract, st: Step) {
    && st.SellCancel? && st.contract == c && st.ok && s.b.CanCancel(st.id)
    && c in s.p.sells && s.p.sells[c].at.Cancelling? && st.id in s.p.sells[c].at.todo
  }

  function Confirm(done: set<OrderId>, s: State, c: Contract, st: Step): set<OrderId> {
    if Enters(s, c, st) then {} else if Confirms(s, c, st) then done + {st.id} else done
  }

  /** The BUYs confirmed as cancelled to the latest sell_option call for `c`. */
  function ConfirmedOf(done: set<OrderId>, s: State, steps: seq<Step>, c: Contract): set<OrderId>
    decreases |steps|
  {
    if steps == [] then done else ConfirmedOf(Confirm(done, s, c, steps[0]), Apply(s, steps[0]), steps[1..], c)
  }

  lemma {:induction false} ConfirmedSnoc(done: set<OrderId>, s: State, steps: seq<Step>, c: Contract, st: Step)
    ensures ConfirmedOf(done, s, steps + [st], c) == Confirm(ConfirmedOf(done, s, steps, c), Run(s, steps), c, st)
    decreases |steps|
  {
    if steps == [] {
      assert steps + [st] == [st] && [st][1..] == [];
      assert ConfirmedOf(Confirm(done, s, c, st), Apply(s, st), [], c) == Confirm(done, s, c, st);
    } else {
      assert (steps + [st])[1..] == steps[1..] + [st] && (steps + [st])[0] == steps[0];
      ConfirmedSnoc(Confirm(done, s, c, steps[0]), Apply(s, steps[0]), steps[1..], c, st);
    }
  }

  ghost predicate Noted(sells: map<Contract, SellCall>, c: Contract, done: set<OrderId>) {
    c in sells ==> sells[c].canceled == done
  }

  lemma StepNotes(s: State, c: Contract, done: set<OrderId>, st: Step)
    requires Noted(s.p.sells, c, done)
    ensures Noted(Apply(s, st).p.sells, c, Confirm(done, s, c, st))
  {
    if IsSellStep(st) {
      SellNotes(s, c, done, st);
    } else if IsPollStep(st) {
      PollTouches(s, st);
    } else if IsBuyStep(st) {
      BuyTouches(s, st);
    } else if IsReconStep(st) {
      ReconTouches(s, st);
    }
  }

  lemma SellNotes(s: State, c: Contract, done: set<OrderId>, st: Step)
    requires Noted(s.p.sells, c, done) && IsSellStep(st)
    ensures Noted(Apply(s, st).p.sells, c, Confirm(done, s, c, st))
  {
    match st
    case SellBegin(d, reason) => BeginNotes(s, c, done, d, reason);
    case SellCancel(d, id, ok) => CancelNotes(s, c, done, d, id, ok);
    case SellSize(d, ok) => RestNotes(s, c, done, d, [], ok);
    case SellSubmit(d, id, ok) => RestNotes(s, c, done, d, [id], ok);
    case SellRegister(d) => RestNotes(s, c, done, d, [], true);
  }

  lemma BeginNotes(s: State, c: Contract, done: set<OrderId>, d: Contract, reason: string)
    requires Noted(s.p.sells, c, done)
    ensures Noted(SellBeginStep(s.p, d, reason).sells, c, Confirm(done, s, c, SellBegin(d, reason)))
  {
  }

  lemma RestNotes(s: State, c: Contract, done: set<OrderId>, d: Contract, ids: seq<OrderId>, ok: bool)
    requires Noted(s.p.sells, c, done)
    ensures Noted(SellSizeStep(s.b, s.p, d, ok).sells, c, done)
    ensures forall id :: id in ids ==> Noted(SellSubmitStep(s, d, id, ok).p.sells, c, done)
    ensures Noted(SellRegisterStep(s.p, d).sells, c, done)
  {
  }

  lemma CancelNotes(s: State, c: Contract, done: set<OrderId>, d: Contract, id: OrderId, ok: bool)
    requires Noted(s.p.sells, c, done)
    ensures Noted(SellCancelStep(s, d, id, ok).p.sells, c, Confirm(done, s, c, SellCancel(d, id, ok)))
  {
  }

  lemma {:induction false} RunNotes(s: State, c: Contract, done: set<OrderId>, steps: seq<Step>)
    requires Noted(s.p.sells, c, done)
    ensures Noted(Run(s, steps).p.sells, c, ConfirmedOf(done, s, steps, c))
    decreases |steps|
  {
    if steps != [] {
      StepNotes(s, c, done, steps[0]);
      RunNotes(Apply(s, steps[0]), c, Confirm(done, s, c, steps[0]), steps[1..]);
    }
  }

  // ----- the entries a submitted sale leaves

  /** What the poll itself has taken out of the pending map. */
  function PolledOut(out: set<OrderId>, s: State, steps: seq<Step>): set<OrderId>
    decreases |steps|
  {
    if steps == [] then out
    else
      var t := Apply(s, steps[0]);
      PolledOut(if IsPollStep(steps[0]) then out + (s.p.pending.Keys - t.p.pending.Keys) else out, t, steps[1..])
  }

  ghost predicate NoEntry(steps: seq<Step>, c: Contract) {
    forall k :: 0 <= k < |steps| ==> !(steps[k].SellBegin? && steps[k].contract == c)
  }

  lemma OutStays(s: State, c: Contract, st: Step)
    requires c !in s.p.sells && !(st.SellBegin? && st.contract == c)
    ensures c !in Apply(s, st).p.sells
  {
    if IsSellStep(st) {
      SellOutStays(s, c, st);
    } else if IsPollStep(st) {
      PollTouches(s, st);
    } else if IsBuyStep(st) {
      BuyTouches(s, st);
    } else if IsReconStep(st) {
      ReconTouches(s, st);
    }
  }

  lemma SellOutStays(s: State, c: Contract, st: Step)
    requires c !in s.p.sells && IsSellStep(st) && !(st.SellBegin? && st.contract == c)
    ensures c !in Apply(s, st).p.sells
  {
  }

  lemma {:induction false} RunOutStays(s: State, c: Contract, steps: seq<Step>)
    requires c !in s.p.sells && NoEntry(steps, c)
    ensures c !in Run(s, steps).p.sells
    decreases |steps|
  {
    if steps != [] {
      OutStays(s, c, steps[0]);
      RunOutStays(Apply(s, steps[0]), c, steps[1..]);
    }
  }

  /** While the call for `c` goes on, only the poll takes out an entry of `c`. */
  lemma {:induction false} CallKeepsEntry(s: State, c: Contract, i: OrderId, out: set<OrderId>, steps: seq<Step>)
    requires Inv(s) && OneLife(steps) && NoEntry(steps, c) && c in Run(s, steps).p.sells
    requires i in out || (i in s.p.pending && Names(s.b, i, s.p.pending[i]) && s.b.orders[i].contract == c)
    ensures i in PolledOut(out, s, steps) || i in Run(s, steps).p.pending
    decreases |steps|
  {
    if steps != [] {
      var st, t := steps[0], Apply(s, steps[0]);
      var out' := if IsPollStep(st) then out + (s.p.pending.Keys - t.p.pending.Keys) else out;
      if c !in t.p.sells {
        RunOutStays(t, c, steps[1..]);
      }
      StepKeeps(s, st);
      if i !in out' {
        if i !in t.p.pending {
          PendingLeaves(s, st, i);
        }
        assert Names(t.b, i, t.p.pending[i]);
        StepKeepsContract(s, st, i);
      }
      CallKeepsEntry(t, c, i, out', steps[1..]);
    }
  }

  lemma StepKeepsContract(s: State, st: Step, i: OrderId)
    requires !st.Crash? && i in s.b.orders
    ensures var t := Apply(s, st); i in t.b.orders && t.b.orders[i].contract == s.b.orders[i].contract
  {
  }

  /** The call for `c` ends by registering its SELL. */
  ghost predicate Registers(s: State, steps: seq<Step>, c: Contract, id: OrderId) {
    && steps != [] && steps[|steps| - 1] == SellRegister(c)
    && var p := Run(s, steps[..|steps| - 1]).p; c in p.sells && p.sells[c].at == SellSent(id)
  }

  lemma RegistersLast(s: State, steps: seq<Step>, c: Contract, id: OrderId, u: State)
    requires u == Run(s, steps) && c in u.p.sells && u.p.sells[c].at == SellSent(id)
    ensures Registers(s, steps + [SellRegister(c)], c, id)
  {
    var all := steps + [SellRegister(c)];
    assert all[..|all| - 1] == steps;
  }

  /** Of the BUYs of `c` pending before, those confirmed as cancelled are out, and the others are still
      pending unless the poll took them out. */
  ghost predicate DropsConfirmed(s: State, steps: seq<Step>, t: State, c: Contract) {
    && (forall i :: i in ConfirmedOf({}, s, steps, c) ==> i !in t.p.pending)
    && (forall i :: i in BuysPending(s.p.pending, c) && i !in ConfirmedOf({}, s, steps, c) && i !in PolledOut({}, s, steps) ==>
          i in t.p.pending)
  }

  lemma {:induction false} PolledOutSnoc(out: set<OrderId>, s: State, steps: seq<Step>, st: Step)
    requires !IsPollStep(st)
    ensures PolledOut(out, s, steps + [st]) == PolledOut(out, s, steps)
    decreases |steps|
  {
    if steps == [] {
      assert steps + [st] == [st] && [st][1..] == [];
      assert PolledOut(out, Apply(s, st), []) == out;
    } else {
      assert (steps + [st])[1..] == steps[1..] + [st] && (steps + [st])[0] == steps[0];
      var t := Apply(s, steps[0]);
      PolledOutSnoc(if IsPollStep(steps[0]) then out + (s.p.pending.Keys - t.p.pending.Keys) else out, t, steps[1..], st);
    }
  }

  lemma RegisterDrops(p: Proc, c: Contract, i: OrderId)
    requires c in p.sells && p.sells[c].at.SellSent?
    ensures i in p.sells[c].canceled && i != p.sells[c].at.id ==> i !in SellRegisterStep(p, c).pending
    ensures i in p.pending && i !in p.sells[c].canceled ==> i in SellRegisterStep(p, c).pending
  {
  }

  lemma ConfirmedAreOut(s: State, first: seq<Step>, c: Contract, i: OrderId)
    requires Inv(s) && c !in s.p.sells && OneLife(first)
    requires c in Run(s, first).p.sells && Run(s, first).p.sells[c].at.SellSent?
    requires i in ConfirmedOf({}, s, first, c)
    ensures i !in SellRegisterStep(Run(s, first).p, c).pending
  {
    var u := Run(s, first);
    RunNotes(s, c, {}, first);
    RunKeeps(s, first);
    assert SellCallOk(u.b, u.p.pending, c, u.p.sells[c]);
    RegisterDrops(u.p, c, i);
  }

  lemma OthersStay(s: State, reason: string, init: seq<Step>, c: Contract, i: OrderId)
    requires Inv(s) && c !in s.p.sells && OneLife(init) && NoEntry(init, c) && i in BuysPending(s.p.pending, c)
    requires var u := Run(Apply(s, SellBegin(c, reason)), init); c in u.p.sells && u.p.sells[c].at.SellSent?
    ensures var t := Apply(s, SellBegin(c, reason));
      var u := Run(t, init); i in u.p.sells[c].canceled || i in PolledOut({}, t, init) || i in SellRegisterStep(u.p, c).pending
  {
    var t := Apply(s, SellBegin(c, reason));
    assert Names(s.b, i, s.p.pending[i]);
    StepKeeps(s, SellBegin(c, reason));
    CallKeepsEntry(t, c, i, {}, init);
    RegisterDrops(Run(t, init).p, c, i);
  }

  lemma {:induction false} EntriesAreOwn(steps: seq<Step>, c: Contract)
    requires NoEntry(Own(steps, Seller(c)), c)
    ensures NoEntry(steps, c)
  {
    if steps != [] {
      var head, rest := Head(steps[0], Seller(c)), Own(steps[1..], Seller(c));
      assert forall k :: 0 <= k < |rest| ==> rest[k] == (head + rest)[|head| + k];
      assert head != [] ==> steps[0] == (head + rest)[0];
      EntriesAreOwn(steps[1..], c);
    }
  }

  /** A sell_option call of a sound state that ends by registering its SELL, whatever ran in between. */
  lemma SaleDropsConfirmed(s: State, reason: string, steps: seq<Step>, c: Contract, id: OrderId)
    requires Inv(s) && c !in s.p.sells && OneLife(steps) && Registers(s, steps, c, id)
    requires [SellBegin(c, reason)] <= steps && NoEntry(steps[1..], c)
    ensures DropsConfirmed(s, steps, Run(s, steps), c)
  {
    var n := |steps| - 1;
    var first, init := steps[..n], steps[1..n];
    assert steps == first + [SellRegister(c)] && first == [SellBegin(c, reason)] + init && first[1..] == init;
    RunSnoc(s, first, SellRegister(c));
    ConfirmedSnoc({}, s, first, c, SellRegister(c));
    PolledOutSnoc({}, s, first, SellRegister(c));
    forall i | i in ConfirmedOf({}, s, first, c) ensures i !in Run(s, steps).p.pending {
      ConfirmedAreOut(s, first, c, i);
    }
    RunNotes(s, c, {}, first);
    forall i | i in BuysPending(s.p.pending, c) && i !in ConfirmedOf({}, s, first, c) && i !in PolledOut({}, s, first)
      ensures i in Run(s, steps).p.pending
    {
      OthersStay(s, reason, init, c, i);
    }
  }

  // ----- a cancelled BUY is done with

  /** The BUYs a sell_option call has had cancelled or is about to. */
  function Doomed(sells: map<Contract, SellCall>, c: Contract): set<OrderId> {
    if c !in sells then {}
    else sells[c].canceled + (if sells[c].at.Cancelling? then sells[c].at.todo else {})
  }

  ghost predicate Unheld(s: State, c: Contract) {
    forall i :: i in Doomed(s.p.sells, c) ==> i in s.b.orders && !HeldByCall(s.p, i)
  }

  lemma PendingUnheld(s: State, i: OrderId)
    requires Inv(s) && OnceInv(s) && i in s.p.pending
    ensures i in s.b.orders && !HeldByCall(s.p, i)
  {
    assert Names(s.b, i, s.p.pending[i]);
    assert Met(EventIds(s.p.events), s.p.pending, s.p.poll, i);
  }

  lemma DoomedShrinks(s: State, c: Contract, st: Step)
    requires !Enters(s, c, st)
    ensures Doomed(Apply(s, st).p.sells, c) <= Doomed(s.p.sells, c)
  {
    if IsSellStep(st) {
      SellDoomedShrinks(s, c, st);
    } else if IsPollStep(st) {
      PollTouches(s, st);
    } else if IsBuyStep(st) {
      BuyTouches(s, st);
    } else if IsReconStep(st) {
      ReconTouches(s, st);
    }
  }

  lemma SellDoomedShrinks(s: State, c: Contract, st: Step)
    requires !Enters(s, c, st) && IsSellStep(st)
    ensures Doomed(Apply(s, st).p.sells, c) <= Doomed(s.p.sells, c)
  {
    match st
    case SellBegin(d, reason) => assert d != c ==> SameSell(SellBeginStep(s.p, d, reason), s.p, c);
    case SellCancel(d, id, ok) => CancelDooms(s, c, d, id, ok);
    case SellSize(d, ok) => RestDooms(s, c, d, [], ok);
    case SellSubmit(d, id, ok) => RestDooms(s, c, d, [id], ok);
    case SellRegister(d) => RestDooms(s, c, d, [], true);
  }

  lemma CancelDooms(s: State, c: Contract, d: Contract, id: OrderId, ok: bool)
    ensures Doomed(SellCancelStep(s, d, id, ok).p.sells, c) <= Doomed(s.p.sells, c)
  {
  }

  lemma RestDooms(s: State, c: Contract, d: Contract, ids: seq<OrderId>, ok: bool)
    ensures Doomed(SellSizeStep(s.b, s.p, d, ok).sells, c) <= Doomed(s.p.sells, c)
    ensures forall id :: id in ids ==> Doomed(SellSubmitStep(s, d, id, ok).p.sells, c) <= Doomed(s.p.sells, c)
    ensures Doomed(SellRegisterStep(s.p, d).sells, c) <= Doomed(s.p.sells, c)
  {
  }

  lemma EntersUnheld(s: State, c: Contract, st: Step)
    requires Inv(s) && OnceInv(s) && Enters(s, c, st)
    ensures Unheld(Apply(s, st), c)
  {
    var t := Apply(s, st);
    forall i | i in Doomed(t.p.sells, c) ensures i in t.b.orders && !HeldByCall(t.p, i) {
      PendingUnheld(s, i);
      StepAddsOnlyHeld(s, st, i);
    }
  }

  lemma StepKeepsUnheld(s: State, c: Contract, st: Step)
    requires Inv(s) && OnceInv(s) && Unheld(s, c) && !st.Crash?
    ensures Unheld(Apply(s, st), c)
  {
    if Enters(s, c, st) {
      EntersUnheld(s, c, st);
    } else {
      DoomedShrinks(s, c, st);
      var t := Apply(s, st);
      forall i | i in Doomed(t.p.sells, c) ensures i in t.b.orders && !HeldByCall(t.p, i) {
        assert i in Doomed(s.p.sells, c);
        assert c in s.p.sells && s.p.reconciled;
        StepAddsOnlyHeld(s, st, i);
      }
    }
  }

  lemma {:induction false} RunKeepsUnheld(s: State, c: Contract, steps: seq<Step>)
    requires Inv(s) && OnceInv(s) && Unheld(s, c) && OneLife(steps)
    ensures Unheld(Run(s, steps), c)
    decreases |steps|
  {
    if steps != [] {
      StepKeeps(s, steps[0]);
      StepKeepsOnce(s, steps[0]);
      StepKeepsUnheld(s, c, steps[0]);
      RunKeepsUnheld(Apply(s, steps[0]), c, steps[1..]);
    }
  }

  /** Registering the SELL leaves the process done with each BUY it cancelled. */
  lemma RegisterLeavesGone(s: State, c: Contract, i: OrderId)
    requires Inv(s) && Unheld(s, c) && c in s.p.sells && s.p.sells[c].at.SellSent? && i in s.p.sells[c].canceled
    ensures Gone(Apply(s, SellRegister(c)), i)
  {
    assert SellCallOk(s.b, s.p.pending, c, s.p.sells[c]);
    assert i in Doomed(s.p.sells, c);
    RegisterDrops(s.p, c, i);
    StepAddsOnlyHeld(s, SellRegister(c), i);
  }

  // ----- on whose behalf the poll writes

  /** The order the poll last read or committed, and the orders on whose behalf it has changed a position,
      an entry or a row. */
  datatype Writes = Writes(current: Option<OrderId>, done: set<OrderId>)

  function DealsWith(current: Option<OrderId>, poll: Poll, st: Step): Option<OrderId> {
    if st.PollRead? && poll.Polling? && poll.at.Ready? && poll.todo != [] then Some(poll.todo[0].0)
    else if st.PollCommit? && poll.Polling? && poll.at.Seen? then Some(poll.at.id)
    else current
  }

  predicate Writing(s: State, st: Step) {
    IsPollStep(st) && var t := Apply(s, st); t.p.positions != s.p.positions || t.p.pending != s.p.pending || t.rows != s.rows
  }

  function NoteWrite(w: Writes, s: State, st: Step): Writes {
    var current := DealsWith(w.current, s.p.poll, st);
    Writes(current, if Writing(s, st) && current.Some? then w.done + {current.value} else w.done)
  }

  function WritesOf(w: Writes, s: State, steps: seq<Step>): Writes
    decreases |steps|
  {
    if steps == [] then w else WritesOf(NoteWrite(w, s, steps[0]), Apply(s, steps[0]), steps[1..])
  }

  /** The poll has committed, and has not finished storing what it committed. */
  predicate PastLock(poll: Poll) {
    poll.Polling? && (poll.at.Opening? || (poll.at.Storing? && poll.at.op.Some?))
  }

  ghost predicate WritesNothing(s: State, w: Writes, i: OrderId) {
    Gone(s, i) && (w.current == Some(i) ==> !PastLock(s.p.poll)) && Follows(w, s.p.poll)
  }

  lemma StepWritesNothing(s: State, w: Writes, i: OrderId, st: Step)
    requires Inv(s) && WritesNothing(s, w, i) && i !in w.done && !st.Crash?
    ensures var w' := NoteWrite(w, s, st); i !in w'.done && (w'.current == Some(i) ==> !PastLock(Apply(s, st).p.poll))
  {
    if IsPollStep(st) {
      PollWritesNothing(s, w, i, st);
    } else {
      OtherKeeps(s, st, PollLoop);
    }
  }

  lemma CommitWritesNothing(s: State, w: Writes, i: OrderId)
    requires WritesNothing(s, w, i) && i !in w.done
    ensures var w' := NoteWrite(w, s, PollCommit); i !in w'.done && (w'.current == Some(i) ==> !PastLock(PollCommitStep(s.p).poll))
  {
    if s.p.poll.Polling? && s.p.poll.at.Seen? {
      if s.p.poll.at.id == i {
        UnlistedCommitsNothing(s);
      }
    } else {
      assert PollCommitStep(s.p) == s.p;
    }
  }

  lemma StoreWritesNothing(s: State, w: Writes, i: OrderId, ok: bool)
    requires WritesNothing(s, w, i) && i !in w.done
    ensures i !in NoteWrite(w, s, PollStore(ok)).done && i !in NoteWrite(w, s, PollRecheck).done
    ensures w.current == Some(i) ==> !PastLock(PollStoreStep(s, ok).p.poll) && !PastLock(PollRecheckStep(s.p).poll)
  {
  }

  lemma BeginWritesNothing(s: State, w: Writes, i: OrderId, ids: seq<OrderId>)
    requires WritesNothing(s, w, i) && i !in w.done
    ensures i !in NoteWrite(w, s, PollBegin(ids)).done
    ensures w.current == Some(i) ==> !PastLock(PollBeginStep(s.p, ids).poll)
  {
  }

  lemma ReadIsBeforeLock(b: Broker, p: Proc, ok: bool)
    ensures PollReadStep(b, p, ok).positions == p.positions
    ensures var q := PollReadStep(b, p, ok); if p.poll.Polling? && p.poll.at.Ready? then !PastLock(q.poll) else q.poll == p.poll
  {
  }

  lemma ReadWritesNothing(s: State, w: Writes, i: OrderId, ok: bool)
    requires PollNamed(s.b, s.p.poll) && WritesNothing(s, w, i) && i !in w.done
    ensures i !in NoteWrite(w, s, PollRead(ok)).done
    ensures NoteWrite(w, s, PollRead(ok)).current == Some(i) ==> !PastLock(PollReadStep(s.b, s.p, ok).poll)
  {
    ReadDropsNothing(s, ok);
    ReadIsBeforeLock(s.b, s.p, ok);
    assert !Writing(s, PollRead(ok));
  }

  lemma PollWritesNothing(s: State, w: Writes, i: OrderId, st: Step)
    requires Inv(s) && WritesNothing(s, w, i) && i !in w.done && IsPollStep(st)
    ensures var w' := NoteWrite(w, s, st); i !in w'.done && (w'.current == Some(i) ==> !PastLock(Apply(s, st).p.poll))
  {
    match st
    case PollBegin(ids) => BeginWritesNothing(s, w, i, ids);
    case PollRead(ok) => ReadWritesNothing(s, w, i, ok);
    case PollCommit => CommitWritesNothing(s, w, i);
    case PollRecheck => StoreWritesNothing(s, w, i, true);
    case PollStore(ok) => StoreWritesNothing(s, w, i, ok);
  }

  ghost predicate Follows(w: Writes, poll: Poll) {
    poll.Polling? && poll.at.Seen? ==> w.current == Some(poll.at.id)
  }

  lemma StepFollows(s: State, w: Writes, st: Step)
    requires Follows(w, s.p.poll)
    ensures Follows(NoteWrite(w, s, st), Apply(s, st).p.poll)
  {
    if st.PollCommit? {
      CommitFollows(s, w);
    } else if !st.Crash? && !IsPollStep(st) {
      OtherKeeps(s, st, PollLoop);
    }
  }

  lemma CommitFollows(s: State, w: Writes)
    requires Follows(w, s.p.poll)
    ensures Follows(NoteWrite(w, s, PollCommit), PollCommitStep(s.p).poll)
  {
    if s.p.poll.Polling? && s.p.poll.at.Seen? {
      SettledIsPast(s.p, s.p.poll.at.id, s.p.poll.at.ctx, s.p.poll.at.order);
    } else {
      assert PollCommitStep(s.p) == s.p;
    }
  }

  lemma SettledIsPast(p: Proc, id: OrderId, ctx: Ctx, o: Order)
    requires p.poll.Polling?
    ensures ctx.SellCtx? ==> !SettleSell(p, id, ctx, o).poll.at.Seen?
    ensures ctx.BuyCtx? ==> !SettleBuy(p, id, ctx, o).poll.at.Seen?
  {
  }

  lemma {:induction false} RunFollows(s: State, w: Writes, steps: seq<Step>)
    requires Follows(w, s.p.poll)
    ensures Follows(WritesOf(w, s, steps), Run(s, steps).p.poll)
    decreases |steps|
  {
    if steps != [] {
      StepFollows(s, w, steps[0]);
      RunFollows(Apply(s, steps[0]), NoteWrite(w, s, steps[0]), steps[1..]);
    }
  }

  lemma {:induction false} GoneWritesNothing(s: State, w: Writes, i: OrderId, steps: seq<Step>)
    requires Inv(s) && WritesNothing(s, w, i) && i !in w.done && OneLife(steps)
    ensures i !in WritesOf(w, s, steps).done
    decreases |steps|
  {
    if steps != [] {
      StepKeeps(s, steps[0]);
      StepWritesNothing(s, w, i, steps[0]);
      StepFollows(s, w, steps[0]);
      StepAddsOnlyHeld(s, steps[0], i);
      GoneWritesNothing(Apply(s, steps[0]), NoteWrite(w, s, steps[0]), i, steps[1..]);
    }
  }

  /** What a submitted sale promises of a BUY `i` it had cancelled: nothing keeps watching it, and once no
      commit of it is past its lock, the poll writes nothing on its behalf, however long the life goes on. */
  ghost predicate NeverAgain(start: State, before: seq<Step>, i: OrderId, later: seq<Step>) {
    var t := Run(start, before);
    var w := WritesOf(Writes(None, {}), start, before);
    && Gone(Run(t, later), i)
    && (w.current != Some(i) || !PastLock(t.p.poll) ==> i !in WritesOf(Writes(w.current, {}), t, later).done)
  }

  /** The main result. In any process life: after a sell_option call has registered its SELL, with
      whatever has run before it and after it, a BUY whose cancel that call had confirmed is watched by
      nothing, and from the moment no commit of it is under way the poll never changes a position, an
      entry or a row for it again. */
  lemma CancelledBuyNeverWritesAgain(b: Broker, rows: seq<Row>, sale: seq<Step>, c: Contract, i: OrderId,
                                     between: seq<Step>, later: seq<Step>)
    requires b.NeverShort() && OneLife(sale) && OneLife(between) && OneLife(later)
    requires var p := Run(State(b, FRESH, rows), sale).p; c in p.sells && p.sells[c].at.SellSent?
    requires i in ConfirmedOf({}, State(b, FRESH, rows), sale, c)
    ensures NeverAgain(State(b, FRESH, rows), sale + [SellRegister(c)] + between, i, later)
  {
    var start := State(b, FRESH, rows);
    var s := Run(start, sale);
    var u := Apply(s, SellRegister(c));
    var before := sale + [SellRegister(c)] + between;
    RunKeepsOnce(start, sale);
    RunKeepsUnheld(start, c, sale);
    RunNotes(start, c, {}, sale);
    RegisterLeavesGone(s, c, i);
    StepKeeps(s, SellRegister(c));
    StaysGone(u, between, i);
    RunKeeps(u, between);
    StaysGone(Run(u, between), later, i);
    RunSnoc(start, sale, SellRegister(c));
    RunAppend(start, sale + [SellRegister(c)], between);
    var w := WritesOf(Writes(None, {}), start, before);
    RunFollows(start, Writes(None, {}), before);
    if w.current != Some(i) || !PastLock(Run(start, before).p.poll) {
      GoneWritesNothing(Run(start, before), Writes(w.current, {}), i, later);
    }
  }
}
