/** The no-position exit of sell_option drops every pending entry of the contract: exactly which open BUYs
    it loses sight of, whatever the rest of the world does during the call, and runs in which it does. */
module EmptyExits {
  import opened Wrappers
  import opened OptionBroker
  import opened OptionProtocol
  import opened NeverShort
  import opened ExactlyOnce
  import opened ThreadFrames
  import opened SaleLimits

  ghost predicate OpenBuyOf(b: Broker, c: Contract, i: OrderId) {
    i in b.orders && b.orders[i].side == Buy && b.orders[i].contract == c && b.orders[i].Open()
  }

  ghost predicate Sending(buys: map<nat, BuyCall>, i: OrderId) {
    exists t :: t in buys && buys[t].at == Sent(i)
  }

  /** Every open BUY of `c` will be polled: it is pending, or with the call that is about to register it. */
  ghost predicate BuysWatched(b: Broker, p: Proc, c: Contract) {
    forall i :: OpenBuyOf(b, c, i) ==> (i in p.pending && p.pending[i].contract == c) || Sending(p.buys, i)
  }

  // ----- the BUYs that the process has registered

  /** What this step adds to the registered BUYs of `c`. */
  function NewlyRegistered(p: Proc, c: Contract, st: Step): set<OrderId> {
    if st.BuyRegister? && st.tid in p.buys && p.buys[st.tid].at.Sent? && p.buys[st.tid].contract == c then {p.buys[st.tid].at.id}
    else {}
  }

  /** The BUYs of `c` registered along the run. */
  function BuysRegistered(s: State, steps: seq<Step>, c: Contract): set<OrderId>
    decreases |steps|
  {
    if steps == [] then {}
    else
      var n := |steps| - 1;
      BuysRegistered(s, steps[..n], c) + NewlyRegistered(Run(s, steps[..n]).p, c, steps[n])
  }

  /** `seen` are BUYs of `c` the process had registered by now, and every open BUY of `c` is one of them
      or still with its call. */
  ghost predicate Accounted(b: Broker, buys: map<nat, BuyCall>, seen: set<OrderId>, c: Contract) {
    && (forall i :: i in seen ==> i in b.orders && b.orders[i].side == Buy && b.orders[i].contract == c && !Sending(buys, i))
    && (forall i :: OpenBuyOf(b, c, i) ==> i in seen || Sending(buys, i))
  }

  /** The call for `c` is under way, and the cancels it was confirmed are final. */
  ghost predicate CancelsFinal(b: Broker, sells: map<Contract, SellCall>, c: Contract) {
    && c in sells && sells[c].at.Cancelling?
    && forall i :: i in sells[c].canceled ==> i in b.orders && !b.orders[i].Open()
  }

  /** No order appears and none opens again. */
  ghost predicate Closes(b: Broker, b': Broker) {
    && (forall i :: i in b.orders ==> i in b'.orders && Earlier(b', i, b.orders[i]))
  }

  // ----- the steps

  lemma VenueAccounts(b: Broker, b': Broker, buys: map<nat, BuyCall>, seen: set<OrderId>, c: Contract)
    requires Accounted(b, buys, seen, c) && Closes(b, b')
    requires forall i :: OpenBuyOf(b', c, i) ==> i in b.orders
    ensures Accounted(b', buys, seen, c)
  {
    forall i | OpenBuyOf(b', c, i) ensures i in seen || Sending(buys, i) {
      assert Earlier(b', i, b.orders[i]);
    }
    forall i | i in seen ensures i in b'.orders && b'.orders[i].side == Buy && b'.orders[i].contract == c {
      assert Earlier(b', i, b.orders[i]);
    }
  }

  lemma SubmitAccounts(b: Broker, buys: map<nat, BuyCall>, seen: set<OrderId>, c: Contract, tid: nat, id: OrderId)
    requires Accounted(b, buys, seen, c) && tid in buys && buys[tid].at.Cleared? && id !in b.orders
    ensures var call := buys[tid];
      Accounted(b.Submit(id, call.contract, Buy, call.qty), buys[tid := call.(at := Sent(id))], seen, c)
  {
    var call := buys[tid];
    var b', buys' := b.Submit(id, call.contract, Buy, call.qty), buys[tid := call.(at := Sent(id))];
    assert buys'[tid].at == Sent(id);
    forall i | OpenBuyOf(b', c, i) ensures i in seen || Sending(buys', i) {
      if i != id {
        assert OpenBuyOf(b, c, i);
        if i !in seen {
          var t :| t in buys && buys[t].at == Sent(i);
          assert t in buys' && buys'[t].at == Sent(i);
        }
      }
    }
  }

  lemma RegisterAccounts(b: Broker, p: Proc, seen: set<OrderId>, c: Contract, tid: nat)
    requires Accounted(b, p.buys, seen, c) && BuysOk(b, p.buys) && tid in p.buys && p.buys[tid].at.Sent?
    requires forall t, u :: t in p.buys && u in p.buys && p.buys[t].at.Sent? && p.buys[t].at == p.buys[u].at ==> t == u
    ensures Accounted(b, p.buys - {tid}, seen + NewlyRegistered(p, c, BuyRegister(tid)), c)
  {
    var buys' := p.buys - {tid};
    assert BuyCallOk(b, p.buys[tid]);
    forall i | OpenBuyOf(b, c, i) && i !in seen + NewlyRegistered(p, c, BuyRegister(tid)) ensures Sending(buys', i) {
      var t :| t in p.buys && p.buys[t].at == Sent(i);
      assert t != tid;
      assert t in buys' && buys'[t].at == Sent(i);
    }
  }

  /** Calls move on, or end, before they submit anything. */
  lemma CallsAccount(b: Broker, buys: map<nat, BuyCall>, buys': map<nat, BuyCall>, seen: set<OrderId>, c: Contract)
    requires Accounted(b, buys, seen, c)
    requires forall i :: Sending(buys', i) <==> Sending(buys, i)
    ensures Accounted(b, buys', seen, c)
  {
  }

  lemma VenueStepCloses(b: Broker, id: OrderId, n: nat, avgPrice: real, status: OrderStatus)
    requires b.NeverShort()
    ensures var b' := b.Advance(id, n, avgPrice, status); Closes(b, b') && b'.orders.Keys == b.orders.Keys
  {
    AdvanceMoves(b, id, n, avgPrice, status);
  }

  lemma CancelCloses(s: State, c: Contract, id: OrderId, ok: bool)
    requires s.b.NeverShort()
    ensures var b' := SellCancelStep(s, c, id, ok).b; Closes(s.b, b') && b'.orders.Keys == s.b.orders.Keys
  {
    if s.b.CanCancel(id) {
      CancelMoves(s.b, id);
    }
  }

  lemma SubmitCloses(s: State, c: Contract, id: OrderId, ok: bool)
    ensures var b' := SellSubmitStep(s, c, id, ok).b; Closes(s.b, b') && forall i :: i in b'.orders && b'.orders[i].side == Buy ==> i in s.b.orders
  {
  }

  lemma SellStepCloses(s: State, st: Step)
    requires s.b.NeverShort() && IsSellStep(st)
    ensures var b' := Apply(s, st).b; Closes(s.b, b') && forall i :: i in b'.orders && b'.orders[i].side == Buy ==> i in s.b.orders
  {
    match st
    case SellCancel(c, id, ok) => CancelCloses(s, c, id, ok);
    case SellSubmit(c, id, ok) => SubmitCloses(s, c, id, ok);
    case _ =>
  }

  lemma BuyCheckAccounts(s: State, seen: set<OrderId>, c: Contract, st: Step)
    requires Accounted(s.b, s.p.buys, seen, c) && (st.BuyAdmit? || st.BuyCheckMemory? || st.BuyCheckBroker? || st.BuyGiveUp?)
    ensures var t := Apply(s, st); Accounted(t.b, t.p.buys, seen, c)
  {
    BuyCheckStepChecks(s, st);
    var buys, buys' := s.p.buys, Apply(s, st).p.buys;
    forall i ensures Sending(buys', i) <==> Sending(buys, i) {
      if t :| t in buys && buys[t].at == Sent(i) {
        assert t in buys' && buys'[t].at == Sent(i);
      }
    }
    CallsAccount(s.b, buys, buys', seen, c);
  }

  lemma BuyStepAccounts(s: State, seen: set<OrderId>, c: Contract, st: Step)
    requires BuysOk(s.b, s.p.buys) && SentUnmet(s.p) && Accounted(s.b, s.p.buys, seen, c) && IsBuyStep(st)
    ensures var t := Apply(s, st); Accounted(t.b, t.p.buys, seen + NewlyRegistered(s.p, c, st), c)
  {
    if st.BuySubmit? {
      if st.tid in s.p.buys && s.p.buys[st.tid].at.Cleared? && st.id !in s.b.orders {
        SubmitAccounts(s.b, s.p.buys, seen, c, st.tid, st.id);
      }
    } else if st.BuyRegister? {
      if st.tid in s.p.buys && s.p.buys[st.tid].at.Sent? {
        RegisterAccounts(s.b, s.p, seen, c, st.tid);
      }
    } else {
      BuyCheckAccounts(s, seen, c, st);
    }
  }

  lemma StepAccounts(s: State, seen: set<OrderId>, c: Contract, st: Step)
    requires Inv(s) && OnceInv(s) && Accounted(s.b, s.p.buys, seen, c) && !st.Crash?
    ensures var t := Apply(s, st); Accounted(t.b, t.p.buys, seen + NewlyRegistered(s.p, c, st), c)
  {
    if IsBuyStep(st) {
      BuyStepAccounts(s, seen, c, st);
    } else if IsSellStep(st) {
      SellTouches(s, st);
      SellStepCloses(s, st);
      VenueAccounts(s.b, Apply(s, st).b, s.p.buys, seen, c);
    } else if IsPollStep(st) {
      PollTouches(s, st);
    } else if IsReconStep(st) {
      ReconTouches(s, st);
    } else {
      VenueStepCloses(s.b, st.id, st.n, st.avgPrice, st.status);
      VenueAccounts(s.b, Apply(s, st).b, s.p.buys, seen, c);
    }
  }

  // the cancels

  lemma FinalStays(b: Broker, b': Broker, sells: map<Contract, SellCall>, sells': map<Contract, SellCall>, c: Contract)
    requires CancelsFinal(b, sells, c) && Closes(b, b') && c in sells' && sells'[c] == sells[c]
    ensures CancelsFinal(b', sells', c)
  {
    forall i | i in sells[c].canceled ensures i in b'.orders && !b'.orders[i].Open() {
      assert Earlier(b', i, b.orders[i]);
    }
  }

  lemma BuyStepCloses(s: State, st: Step)
    requires IsBuyStep(st)
    ensures Closes(s.b, Apply(s, st).b)
  {
  }

  lemma CancelStepFinal(s: State, c: Contract, id: OrderId, ok: bool)
    requires CancelsFinal(s.b, s.p.sells, c)
    ensures var t := SellCancelStep(s, c, id, ok); CancelsFinal(t.b, t.p.sells, c)
  {
  }

  lemma SellStepFinal(s: State, c: Contract, st: Step)
    requires CancelsFinal(s.b, s.p.sells, c) && s.b.NeverShort() && IsSellStep(st) && !(st.SellSize? && st.contract == c)
    ensures var t := Apply(s, st); CancelsFinal(t.b, t.p.sells, c)
  {
    if st.contract == c {
      if st.SellCancel? {
        CancelStepFinal(s, c, st.id, st.ok);
      }
    } else {
      SellTouches(s, st);
      SellStepCloses(s, st);
      assert SameSell(s.p, Apply(s, st).p, c);
      FinalStays(s.b, Apply(s, st).b, s.p.sells, Apply(s, st).p.sells, c);
    }
  }

  lemma StepFinal(s: State, c: Contract, st: Step)
    requires Inv(s) && CancelsFinal(s.b, s.p.sells, c) && !st.Crash? && !(st.SellSize? && st.contract == c)
    ensures var t := Apply(s, st); CancelsFinal(t.b, t.p.sells, c)
  {
    if IsSellStep(st) {
      SellStepFinal(s, c, st);
    } else {
      if IsBuyStep(st) {
        BuyTouches(s, st);
        BuyStepCloses(s, st);
      } else if IsPollStep(st) {
        PollTouches(s, st);
      } else if IsReconStep(st) {
        ReconTouches(s, st);
      } else {
        VenueStepCloses(s.b, st.id, st.n, st.avgPrice, st.status);
      }
      FinalStays(s.b, Apply(s, st).b, s.p.sells, Apply(s, st).p.sells, c);
    }
  }

  // ----- the call, in any interleaving

  lemma {:induction false} RunAccounts(s: State, seen: set<OrderId>, c: Contract, steps: seq<Step>)
    requires Inv(s) && OnceInv(s) && OneLife(steps) && Accounted(s.b, s.p.buys, seen, c)
    ensures var t := Run(s, steps); Accounted(t.b, t.p.buys, seen + BuysRegistered(s, steps, c), c)
    decreases |steps|
  {
    if steps == [] {
      assert seen + BuysRegistered(s, steps, c) == seen;
    } else {
      var init, last := steps[..|steps| - 1], steps[|steps| - 1];
      assert steps == init + [last];
      RunAccounts(s, seen, c, init);
      RunKeepsOnce(s, init);
      RunSnoc(s, init, last);
      StepAccounts(Run(s, init), seen + BuysRegistered(s, init, c), c, last);
      assert seen + BuysRegistered(s, init, c) + NewlyRegistered(Run(s, init).p, c, last) == seen + BuysRegistered(s, steps, c);
    }
  }

  /** The steps do not size the call for `c`. */
  ghost predicate NotSized(steps: seq<Step>, c: Contract) {
    forall k :: 0 <= k < |steps| ==> !(steps[k].SellSize? && steps[k].contract == c)
  }

  lemma {:induction false} RunFinal(s: State, c: Contract, steps: seq<Step>)
    requires Inv(s) && OneLife(steps) && NotSized(steps, c) && CancelsFinal(s.b, s.p.sells, c)
    ensures var t := Run(s, steps); CancelsFinal(t.b, t.p.sells, c)
    decreases |steps|
  {
    if steps != [] {
      StepKeeps(s, steps[0]);
      StepFinal(s, c, steps[0]);
      RunFinal(Apply(s, steps[0]), c, steps[1..]);
    }
  }

  lemma StaleAccounted(s: State, c: Contract)
    requires Inv(s) && OnceInv(s) && BuysWatched(s.b, s.p, c)
    ensures Accounted(s.b, s.p.buys, BuysPending(s.p.pending, c), c)
  {
    forall i | i in BuysPending(s.p.pending, c) ensures i in s.b.orders && s.b.orders[i].side == Buy && s.b.orders[i].contract == c && !Sending(s.p.buys, i) {
      assert Names(s.b, i, s.p.pending[i]);
      assert Met(EventIds(s.p.events), s.p.pending, s.p.poll, i);
    }
    forall i | OpenBuyOf(s.b, c, i) && !Sending(s.p.buys, i) ensures i in BuysPending(s.p.pending, c) {
      assert Names(s.b, i, s.p.pending[i]);
    }
  }

  lemma BeginsAccounted(s: State, c: Contract, reason: string)
    requires Inv(s) && OnceInv(s) && MaySell(s.p, c) && !SellPending(s.p.pending, c) && BuysWatched(s.b, s.p, c)
    ensures var begun := Apply(s, SellBegin(c, reason));
      && Inv(begun) && OnceInv(begun) && Accounted(begun.b, begun.p.buys, BuysPending(s.p.pending, c), c)
      && CancelsFinal(begun.b, begun.p.sells, c)
  {
    StepKeeps(s, SellBegin(c, reason));
    StepKeepsOnce(s, SellBegin(c, reason));
    StaleAccounted(s, c);
  }

  /** What the no-position exit loses sight of, of the BUYs accounted for. */
  lemma ExitLoses(m: State, c: Contract, seen: set<OrderId>)
    requires Accounted(m.b, m.p.buys, seen, c) && c in m.p.sells && m.p.sells[c].at == Cancelling({}) && m.b.Net(c) <= 0
    ensures var t := Apply(m, SellSize(c, true));
      && c !in t.p.sells && c !in t.p.positions
      && (BuysWatched(t.b, t.p, c) <==> forall i :: i in seen ==> !OpenBuyOf(m.b, c, i))
  {
    var t := Apply(m, SellSize(c, true));
    assert t.b == m.b && t.p.buys == m.p.buys && t.p.pending == WithoutContract(m.p.pending, c);
  }

  /** The main result: a call of sell_option that finds no position, whatever ran between its first lock
      section and its sizing. If every open BUY was watched when it began, every open BUY is watched
      when it ends exactly when no stale BUY whose cancel was not confirmed is still open, and none
      that was registered meanwhile is. */
  lemma EmptyExitWatchesBuysIff(s: State, c: Contract, reason: string, steps: seq<Step>)
    requires Inv(s) && OnceInv(s) && MaySell(s.p, c) && !SellPending(s.p.pending, c) && BuysWatched(s.b, s.p, c)
    requires OneLife(steps) && NotSized(steps, c)
    requires var m := Run(Apply(s, SellBegin(c, reason)), steps); c in m.p.sells && m.p.sells[c].at == Cancelling({}) && m.b.Net(c) <= 0
    ensures var begun := Apply(s, SellBegin(c, reason)); var m := Run(begun, steps); var t := Apply(m, SellSize(c, true));
      && c !in t.p.sells && c !in t.p.positions
      && (BuysWatched(t.b, t.p, c) <==>
            && (forall i :: i in BuysPending(s.p.pending, c) && i !in m.p.sells[c].canceled ==> !OpenBuyOf(m.b, c, i))
            && (forall i :: i in BuysRegistered(begun, steps, c) ==> !OpenBuyOf(m.b, c, i)))
  {
    var begun := Apply(s, SellBegin(c, reason));
    var m := Run(begun, steps);
    BeginsAccounted(s, c, reason);
    RunAccounts(begun, BuysPending(s.p.pending, c), c, steps);
    RunFinal(begun, c, steps);
    ExitLoses(m, c, BuysPending(s.p.pending, c) + BuysRegistered(begun, steps, c));
  }

  // ----- the call alone

  /** Every open BUY of `c` is pending. */
  ghost predicate OpenBuysPending(b: Broker, pending: map<OrderId, Ctx>, c: Contract) {
    forall i :: OpenBuyOf(b, c, i) ==> i in pending && pending[i].contract == c
  }

  /** With nothing else happening during the call, in terms of the answers to its cancels: the open BUYs
      stay pending exactly when each stale BUY was confirmed cancelled or was over when it began. */
  lemma QuietEmptyExitWatchesBuysIff(s: State, c: Contract, reason: string, answers: OrderId -> bool, cancels: seq<Step>)
    requires PendingNamed(s.b, s.p.pending) && OpenBuysPending(s.b, s.p.pending, c) && s.b.Net(c) <= 0
    requires Enters(s, c, reason, answers, cancels)
    ensures var t := Run(s, [SellBegin(c, reason)] + cancels + [SellSize(c, true)]);
      && c !in t.p.sells && c !in t.p.positions
      && (OpenBuysPending(t.b, t.p.pending, c)
          <==> forall i :: i in BuysPending(s.p.pending, c) ==> answers(i) || !s.b.orders[i].Open())
  {
    var stale := BuysPending(s.p.pending, c);
    var entered := [SellBegin(c, reason)] + cancels;
    EntersAndCancels(s, c, reason, answers, cancels);
    var mid := Run(s, entered);
    RunAppend(s, entered, [SellSize(c, true)]);
    RunOne(mid, SellSize(c, true));
    var t := Run(s, entered + [SellSize(c, true)]);
    assert t.b == mid.b && t.p.pending == WithoutContract(s.p.pending, c);
    forall i | i in stale ensures OpenBuyOf(t.b, c, i) <==> s.b.orders[i].Open() && !answers(i) {
      assert Names(s.b, i, s.p.pending[i]);
    }
    forall i | OpenBuyOf(t.b, c, i) ensures i in stale {
      assert OpenBuyOf(s.b, c, i);
      assert Names(s.b, i, s.p.pending[i]);
    }
  }
}
