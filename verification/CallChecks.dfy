/** What the answers of sell_option and buy_option rest on: the position the venue last showed the sale,
    and the outcome of the two duplicate checks of the BUY, each as it was when the call asked. */
module CallChecks {
  import opened Wrappers
  import opened OptionBroker
  import opened OptionProtocol
  import opened ThreadFrames
  import SaleRegisters

  // ----- the size of a sale

  /** The venue's net position of `c` when the sell_option call for it last asked. */
  function Asked(net: Option<int>, s: State, c: Contract, st: Step): Option<int> {
    if st == SellSize(c, true) && c in s.p.sells && s.p.sells[c].at == Cancelling({}) then Some(s.b.Net(c)) else net
  }

  function NetAsked(net: Option<int>, s: State, steps: seq<Step>, c: Contract): Option<int>
    decreases |steps|
  {
    if steps == [] then net else NetAsked(Asked(net, s, c, steps[0]), Apply(s, steps[0]), steps[1..], c)
  }

  ghost predicate SaleAsks(b: Broker, c: Contract, id: OrderId, side: Side, qty: int) {
    id in b.orders && b.orders[id].contract == c && b.orders[id].side == side && b.orders[id].qty == qty
  }

  ghost predicate SizedAs(b: Broker, sells: map<Contract, SellCall>, c: Contract, net: Option<int>) {
    c in sells ==>
      && (sells[c].at.Sized? ==> net == Some(sells[c].at.qty))
      && (sells[c].at.SellSent? ==> net.Some? && SaleAsks(b, c, sells[c].at.id, Sell, net.value))
  }

  ghost predicate SameAsk(o: Order, b: Broker, i: OrderId) {
    i in b.orders && b.orders[i].contract == o.contract && b.orders[i].side == o.side && b.orders[i].qty == o.qty
  }

  /** What an order was submitted for never changes. */
  ghost predicate OrdersStand(b: Broker, b': Broker) {
    forall i :: i in b.orders ==> SameAsk(b.orders[i], b', i)
  }

  lemma SellsStand(s: State, st: Step)
    requires IsSellStep(st)
    ensures OrdersStand(s.b, Apply(s, st).b)
  {
  }

  lemma StepStands(s: State, st: Step)
    ensures OrdersStand(s.b, Apply(s, st).b)
  {
    if IsSellStep(st) {
      SellsStand(s, st);
    }
  }

  lemma AsksStand(b: Broker, b': Broker, c: Contract, id: OrderId, side: Side, qty: int)
    requires OrdersStand(b, b') && SaleAsks(b, c, id, side, qty)
    ensures SaleAsks(b', c, id, side, qty)
  {
    assert SameAsk(b.orders[id], b', id);
  }

  lemma StepSized(s: State, c: Contract, net: Option<int>, st: Step)
    requires SizedAs(s.b, s.p.sells, c, net) && !st.Crash?
    ensures var t := Apply(s, st); SizedAs(t.b, t.p.sells, c, Asked(net, s, c, st))
  {
    if IsSellStep(st) && st.contract == c {
      OwnStepSized(s, c, net, st);
    } else {
      var t := Apply(s, st);
      StepStands(s, st);
      if c in s.p.sells {
        OtherKeeps(s, st, Seller(c));
        if s.p.sells[c].at.SellSent? {
          AsksStand(s.b, t.b, c, s.p.sells[c].at.id, Sell, net.value);
        }
      } else {
        SaleRegisters.OutStays(s, c, st);
      }
    }
  }

  lemma OwnStepSized(s: State, c: Contract, net: Option<int>, st: Step)
    requires SizedAs(s.b, s.p.sells, c, net) && IsSellStep(st) && st.contract == c
    ensures var t := Apply(s, st); SizedAs(t.b, t.p.sells, c, Asked(net, s, c, st))
  {
    match st
    case SellCancel(_, id, ok) => CancelSized(s, c, net, id, ok);
    case SellSubmit(_, id, ok) => SubmitSized(s, c, net, id, ok);
    case _ =>
  }

  lemma CancelSized(s: State, c: Contract, net: Option<int>, id: OrderId, ok: bool)
    requires SizedAs(s.b, s.p.sells, c, net)
    ensures var t := SellCancelStep(s, c, id, ok); SizedAs(t.b, t.p.sells, c, net)
  {
  }

  lemma SubmitSized(s: State, c: Contract, net: Option<int>, id: OrderId, ok: bool)
    requires SizedAs(s.b, s.p.sells, c, net)
    ensures var t := SellSubmitStep(s, c, id, ok); SizedAs(t.b, t.p.sells, c, net)
  {
  }

  lemma {:induction false} RunSized(s: State, c: Contract, net: Option<int>, steps: seq<Step>)
    requires SizedAs(s.b, s.p.sells, c, net) && OneLife(steps)
    ensures var t := Run(s, steps); SizedAs(t.b, t.p.sells, c, NetAsked(net, s, steps, c))
    decreases |steps|
  {
    if steps != [] {
      StepSized(s, c, net, steps[0]);
      RunSized(Apply(s, steps[0]), c, Asked(net, s, c, steps[0]), steps[1..]);
    }
  }

  lemma {:induction false} NetAskedSnoc(net: Option<int>, s: State, steps: seq<Step>, c: Contract, st: Step)
    ensures NetAsked(net, s, steps + [st], c) == Asked(NetAsked(net, s, steps, c), Run(s, steps), c, st)
    decreases |steps|
  {
    if steps == [] {
      assert steps + [st] == [st] && [st][1..] == [];
      assert NetAsked(Asked(net, s, c, st), Apply(s, st), [], c) == Asked(net, s, c, st);
    } else {
      assert (steps + [st])[1..] == steps[1..] + [st] && (steps + [st])[0] == steps[0];
      NetAskedSnoc(Asked(net, s, c, steps[0]), Apply(s, steps[0]), steps[1..], c, st);
    }
  }

  /** A registered sale asks for all the venue held when the call last asked. */
  lemma SaleSellsAll(s: State, steps: seq<Step>, c: Contract, id: OrderId)
    requires c !in s.p.sells && OneLife(steps) && SaleRegisters.Registers(s, steps, c, id)
    ensures var net := NetAsked(None, s, steps, c); net.Some? && SaleAsks(Run(s, steps).b, c, id, Sell, net.value)
  {
    var first := steps[..|steps| - 1];
    assert steps == first + [SellRegister(c)];
    RunSized(s, c, None, first);
    RunSnoc(s, first, SellRegister(c));
    NetAskedSnoc(None, s, first, c, SellRegister(c));
  }

  // ----- the checks of a BUY

  /** The outcome of the two duplicate checks, and whether the call has gone on to give up or register. */
  datatype Checks = Checks(memory: Option<bool>, venue: Option<bool>, ended: bool)

  const UNCHECKED := Checks(None, None, false)

  /** Neither a BUY of `c` is in flight nor is `c` tracked. */
  ghost predicate FreeInMemory(p: Proc, c: Contract) {
    c !in p.positions && forall i :: i in p.pending && p.pending[i].BuyCtx? ==> p.pending[i].contract != c
  }

  ghost function Check(k: Checks, s: State, tid: nat, st: Step): Checks {
    if !(IsBuyStep(st) && st.tid == tid) then k
    else if tid !in s.p.buys then if st.BuyAdmit? && s.p.reconciled then UNCHECKED else k
    else
      var call := s.p.buys[tid];
      if st.BuyCheckMemory? && call.at.Admitted? then k.(memory := Some(FreeInMemory(s.p, call.contract)))
      else if st.BuyCheckBroker? && call.at.MemoryChecked? then k.(venue := Some(!st.ok || s.b.Net(call.contract) == 0))
      else if (st.BuyGiveUp? && !call.at.Sent?) || (st.BuyRegister? && call.at.Sent?) then k.(ended := true)
      else k
  }

  ghost function ChecksOf(k: Checks, s: State, steps: seq<Step>, tid: nat): Checks
    decreases |steps|
  {
    if steps == [] then k else ChecksOf(Check(k, s, tid, steps[0]), Apply(s, steps[0]), steps[1..], tid)
  }

  ghost predicate Passed(k: Checks) {
    k.memory == Some(true) && k.venue == Some(true)
  }

  ghost predicate CallChecked(b: Broker, call: BuyCall, k: Checks) {
    match call.at
    case Admitted => true
    case MemoryChecked => k.memory == Some(true)
    case Cleared => Passed(k)
    case Sent(id) => Passed(k) && SaleAsks(b, call.contract, id, Buy, call.qty)
  }

  ghost predicate BuyChecked(s: State, tid: nat, k: Checks) {
    if tid in s.p.buys then CallChecked(s.b, s.p.buys[tid], k)
    else k.memory == Some(false) || k.venue == Some(false) || k.ended
  }

  lemma OwnBuyStepChecked(s: State, tid: nat, k: Checks, st: Step)
    requires BuyChecked(s, tid, k) && IsBuyStep(st) && st.tid == tid
    ensures BuyChecked(Apply(s, st), tid, Check(k, s, tid, st))
  {
    match st
    case BuyCheckMemory(_) => MemoryChecks(s, tid, k);
    case _ =>
  }

  lemma MemoryChecks(s: State, tid: nat, k: Checks)
    requires BuyChecked(s, tid, k)
    ensures BuyChecked(s.(p := BuyCheckMemoryStep(s.p, tid)), tid, Check(k, s, tid, BuyCheckMemory(tid)))
  {
    if tid in s.p.buys && s.p.buys[tid].at.Admitted? {
      var c := s.p.buys[tid].contract;
      if i :| i in s.p.pending && s.p.pending[i].BuyCtx? && s.p.pending[i].contract == c {
        assert i in BuysPending(s.p.pending, c);
      } else {
        assert BuysPending(s.p.pending, c) == {};
      }
    }
  }

  lemma BuyOutStays(s: State, tid: nat, st: Step)
    requires tid !in s.p.buys && IsBuyStep(st) && st.tid != tid
    ensures tid !in Apply(s, st).p.buys
  {
  }

  lemma StepChecked(s: State, tid: nat, k: Checks, st: Step)
    requires BuyChecked(s, tid, k) && !st.Crash?
    ensures BuyChecked(Apply(s, st), tid, Check(k, s, tid, st))
  {
    if IsBuyStep(st) && st.tid == tid {
      OwnBuyStepChecked(s, tid, k, st);
    } else if tid in s.p.buys {
      OtherKeeps(s, st, Buyer(tid));
      StepStands(s, st);
      if s.p.buys[tid].at.Sent? {
        AsksStand(s.b, Apply(s, st).b, s.p.buys[tid].contract, s.p.buys[tid].at.id, Buy, s.p.buys[tid].qty);
      }
    } else if IsBuyStep(st) {
      BuyOutStays(s, tid, st);
    } else if IsPollStep(st) {
      PollTouches(s, st);
    } else if IsSellStep(st) {
      SellTouches(s, st);
    } else if IsReconStep(st) {
      ReconTouches(s, st);
    }
  }

  lemma {:induction false} RunChecked(s: State, tid: nat, k: Checks, steps: seq<Step>)
    requires BuyChecked(s, tid, k) && OneLife(steps)
    ensures BuyChecked(Run(s, steps), tid, ChecksOf(k, s, steps, tid))
    decreases |steps|
  {
    if steps != [] {
      StepChecked(s, tid, k, steps[0]);
      RunChecked(Apply(s, steps[0]), tid, Check(k, s, tid, steps[0]), steps[1..]);
    }
  }

  /** The call admitted by the first step ends by registering its BUY. */
  ghost predicate RegistersBuy(s: State, steps: seq<Step>, tid: nat, id: OrderId) {
    && steps != [] && steps[|steps| - 1] == BuyRegister(tid)
    && var p := Run(s, steps[..|steps| - 1]).p; tid in p.buys && p.buys[tid].at == Sent(id)
  }

  lemma RegistersBuyLast(s: State, steps: seq<Step>, tid: nat, id: OrderId, u: State)
    requires u == Run(s, steps) && tid in u.p.buys && u.p.buys[tid].at == Sent(id)
    ensures RegistersBuy(s, steps + [BuyRegister(tid)], tid, id)
  {
    var all := steps + [BuyRegister(tid)];
    assert all[..|all| - 1] == steps;
  }

  lemma {:induction false} ChecksSnoc(k: Checks, s: State, steps: seq<Step>, tid: nat, st: Step)
    ensures ChecksOf(k, s, steps + [st], tid) == Check(ChecksOf(k, s, steps, tid), Run(s, steps), tid, st)
    decreases |steps|
  {
    if steps == [] {
      assert steps + [st] == [st] && [st][1..] == [];
      assert ChecksOf(Check(k, s, tid, st), Apply(s, st), [], tid) == Check(k, s, tid, st);
    } else {
      assert (steps + [st])[1..] == steps[1..] + [st] && (steps + [st])[0] == steps[0];
      ChecksSnoc(Check(k, s, tid, steps[0]), Apply(s, steps[0]), steps[1..], tid, st);
    }
  }

  /** A registered BUY has passed both checks, and the venue's order is for what its entry says. */
  ghost predicate BuyPassed(s: State, steps: seq<Step>, t: State, tid: nat, id: OrderId) {
    && Passed(ChecksOf(UNCHECKED, s, steps, tid))
    && id in t.p.pending && t.p.pending[id].BuyCtx? && SaleAsks(t.b, t.p.pending[id].contract, id, Buy, t.p.pending[id].qty)
  }

  lemma RegisteredBuyPassed(s: State, steps: seq<Step>, tid: nat, c: Contract, terms: Terms, qty: nat, id: OrderId)
    requires s.p.reconciled && tid !in s.p.buys && OneLife(steps) && [BuyAdmit(tid, c, terms, qty)] <= steps
    requires RegistersBuy(s, steps, tid, id)
    ensures BuyPassed(s, steps, Run(s, steps), tid, id)
  {
    var n := |steps| - 1;
    var first, init := steps[..n], steps[1..n];
    var admit := BuyAdmit(tid, c, terms, qty);
    assert steps == first + [BuyRegister(tid)] && first == [admit] + init && first[1..] == init;
    RunChecked(Apply(s, admit), tid, UNCHECKED, init);
    RunSnoc(s, first, BuyRegister(tid));
    ChecksSnoc(UNCHECKED, s, first, tid, BuyRegister(tid));
  }

  /** The call neither gives up nor registers. */
  ghost predicate NoEnd(steps: seq<Step>, tid: nat) {
    forall k :: 0 <= k < |steps| ==> !((steps[k].BuyGiveUp? || steps[k].BuyRegister?) && steps[k].tid == tid)
  }

  lemma {:induction false} NotEnded(k: Checks, s: State, steps: seq<Step>, tid: nat)
    requires !k.ended && NoEnd(steps, tid)
    ensures !ChecksOf(k, s, steps, tid).ended
    decreases |steps|
  {
    if steps != [] {
      NotEnded(Check(k, s, tid, steps[0]), Apply(s, steps[0]), steps[1..], tid);
    }
  }

  /** One of the two checks found a duplicate. */
  ghost predicate FoundDuplicate(k: Checks) {
    k.memory == Some(false) || k.venue == Some(false)
  }

  lemma SkippedFoundDuplicate(s: State, steps: seq<Step>, tid: nat, c: Contract, terms: Terms, qty: nat)
    requires s.p.reconciled && tid !in s.p.buys && OneLife(steps) && [BuyAdmit(tid, c, terms, qty)] <= steps
    requires NoEnd(steps[1..], tid) && tid !in Run(s, steps).p.buys
    ensures FoundDuplicate(ChecksOf(UNCHECKED, s, steps, tid))
  {
    var t := Apply(s, BuyAdmit(tid, c, terms, qty));
    assert steps[0] == BuyAdmit(tid, c, terms, qty);
    RunChecked(t, tid, UNCHECKED, steps[1..]);
    NotEnded(UNCHECKED, t, steps[1..], tid);
  }

  lemma {:induction false} EndsAreOwn(steps: seq<Step>, tid: nat)
    requires NoEnd(Own(steps, Buyer(tid)), tid)
    ensures NoEnd(steps, tid)
  {
    if steps != [] {
      var head, rest := Head(steps[0], Buyer(tid)), Own(steps[1..], Buyer(tid));
      assert forall k :: 0 <= k < |rest| ==> rest[k] == (head + rest)[|head| + k];
      assert head != [] ==> steps[0] == (head + rest)[0];
      EndsAreOwn(steps[1..], tid);
    }
  }
}
