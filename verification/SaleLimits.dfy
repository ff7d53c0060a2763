/** sell_option run to its end with nothing else happening in between, and exactly when that can make a
    contract short. */
module SaleLimits {
  import opened Wrappers
  import opened OptionBroker
  import opened OptionProtocol
  import opened NeverShort
  import opened ThreadFrames
  import opened VenueMoves

  // ----- the cancels, whatever their order

  ghost predicate Confirmed(b: Broker, ids: set<OrderId>, answers: OrderId -> bool, i: OrderId) {
    i in ids && answers(i) && b.CanCancel(i)
  }

  /** The venue after the BUYs in `ids` were asked to be cancelled. */
  ghost predicate AfterCancels(b: Broker, b': Broker, ids: set<OrderId>, answers: OrderId -> bool) {
    && b'.net == b.net && b'.orders.Keys == b.orders.Keys
    && forall i :: i in b.orders ==>
         b'.orders[i] == if Confirmed(b, ids, answers, i) then b.orders[i].(status := Canceled) else b.orders[i]
  }

  /** The call for `c` has only moved from the BUYs `ids` on to the rest of its list. */
  ghost predicate AskedFor(p: Proc, p': Proc, c: Contract, ids: set<OrderId>) {
    && c in p.sells && p.sells[c].at.Cancelling? && c in p'.sells
    && p'.sells[c].at == Cancelling(p.sells[c].at.todo - ids)
    && p' == p.(sells := p'.sells)
  }

  lemma OneMoreCancel(s: State, s1: State, ids: set<OrderId>, c: Contract, answers: OrderId -> bool, id: OrderId)
    requires AskedFor(s.p, s1.p, c, ids) && AfterCancels(s.b, s1.b, ids, answers) && s1.rows == s.rows
    requires id !in ids && id in s.p.sells[c].at.todo
    ensures var t := Apply(s1, SellCancel(c, id, answers(id)));
      AskedFor(s.p, t.p, c, ids + {id}) && AfterCancels(s.b, t.b, ids + {id}, answers) && t.rows == s.rows
  {
    var todo := s.p.sells[c].at.todo;
    assert todo - ids - {id} == todo - (ids + {id});
    assert s1.b.CanCancel(id) <==> s.b.CanCancel(id);
  }

  lemma {:induction false} CancelsDone(s: State, cancels: seq<Step>, ids: set<OrderId>, c: Contract, answers: OrderId -> bool)
    requires c in s.p.sells && s.p.sells[c].at.Cancelling? && ids <= s.p.sells[c].at.todo
    requires CancelsAll(cancels, ids, c, answers)
    ensures var t := Run(s, cancels);
      AskedFor(s.p, t.p, c, ids) && AfterCancels(s.b, t.b, ids, answers) && t.rows == s.rows
    decreases |cancels|
  {
    if cancels == [] {
      assert s.p.sells[c].at.todo - ids == s.p.sells[c].at.todo;
    } else {
      var last := cancels[|cancels| - 1];
      var init := cancels[..|cancels| - 1];
      assert cancels == init + [last];
      CancelsDone(s, init, ids - {last.id}, c, answers);
      RunAppend(s, init, [last]);
      RunOne(Run(s, init), last);
      OneMoreCancel(s, Run(s, init), ids - {last.id}, c, answers, last.id);
      assert ids - {last.id} + {last.id} == ids;
    }
  }

  /** The call up to its sizing: the first lock section, then each stale BUY once. */
  ghost predicate Enters(s: State, c: Contract, reason: string, answers: OrderId -> bool, cancels: seq<Step>) {
    MaySell(s.p, c) && !SellPending(s.p.pending, c) && CancelsAll(cancels, BuysPending(s.p.pending, c), c, answers)
  }

  lemma EntersAndCancels(s: State, c: Contract, reason: string, answers: OrderId -> bool, cancels: seq<Step>)
    requires Enters(s, c, reason, answers, cancels)
    ensures var t := Run(s, [SellBegin(c, reason)] + cancels);
      && AfterCancels(s.b, t.b, BuysPending(s.p.pending, c), answers) && t.rows == s.rows
      && c in t.p.sells && t.p.sells[c].at == Cancelling({}) && t.p == s.p.(sells := t.p.sells)
  {
    var stale := BuysPending(s.p.pending, c);
    var s1 := Apply(s, SellBegin(c, reason));
    assert s1 == s.(p := s.p.(sells := s.p.sells[c := SellCall(reason, {}, Cancelling(stale))]));
    assert ([SellBegin(c, reason)] + cancels)[1..] == cancels;
    CancelsDone(s1, cancels, stale, c, answers);
    assert stale - stale == {};
  }

  // ----- a second SELL beside an unwatched one

  ghost predicate CanGoShort(b: Broker, c: Contract) {
    exists fills :: Trade(b, fills).Net(c) < 0
  }

  /** An open SELL of `c` with something left to sell. */
  ghost predicate Unfinished(b: Broker, c: Contract, i: OrderId) {
    b.OpenSell(i) && b.orders[i].contract == c && b.orders[i].filled < b.orders[i].qty
  }

  /** Of the SELLs of `c` only `id` may still take anything, and the position covers it. */
  ghost predicate OnlyCovered(b: Broker, c: Contract, id: OrderId) {
    && (forall i :: i in b.orders ==> b.orders[i].filled <= b.orders[i].qty)
    && b.Net(c) >= 0
    && id in b.orders && b.orders[id].side == Sell && b.orders[id].contract == c
    && (b.orders[id].Open() ==> b.Net(c) >= b.orders[id].qty - b.orders[id].filled)
    && (forall i :: Unfinished(b, c, i) ==> i == id)
  }

  lemma AdvanceKeepsCovered(b: Broker, c: Contract, id: OrderId, f: Fill)
    requires OnlyCovered(b, c, id)
    ensures OnlyCovered(b.Advance(f.id, f.n, f.avgPrice, f.status), c, id)
  {
    var b' := b.Advance(f.id, f.n, f.avgPrice, f.status);
    if b' != b {
      var o := b.orders[f.id];
      assert b'.Net(c) == if o.contract != c then b.Net(c) else if o.side == Buy then b.Net(c) + f.n else b.Net(c) - f.n;
      if o.contract == c && o.side == Sell && f.id != id {
        assert !Unfinished(b, c, f.id);
      }
      forall i | Unfinished(b', c, i) ensures i == id {
        assert Unfinished(b, c, i);
      }
    }
  }

  lemma {:induction false} TradeKeepsCovered(b: Broker, c: Contract, id: OrderId, fills: seq<Fill>)
    requires OnlyCovered(b, c, id)
    ensures OnlyCovered(Trade(b, fills), c, id)
    decreases |fills|
  {
    if fills != [] {
      AdvanceKeepsCovered(b, c, id, fills[0]);
      TradeKeepsCovered(b.Advance(fills[0].id, fills[0].n, fills[0].avgPrice, fills[0].status), c, id, fills[1..]);
    }
  }

  lemma TwoSellsGoShort(b: Broker, c: Contract, i: OrderId, id: OrderId)
    requires Unfinished(b, c, i) && i != id && b.OpenSell(id) && b.orders[id].contract == c
    requires b.orders[id].filled == 0 && b.orders[id].qty == b.Net(c)
    ensures CanGoShort(b, c)
  {
    var first := Fill(i, b.orders[i].qty - b.orders[i].filled, 0.0, Filled);
    var second := Fill(id, b.orders[id].qty, 0.0, Filled);
    var b1 := b.Advance(first.id, first.n, first.avgPrice, first.status);
    var b2 := b1.Advance(second.id, second.n, second.avgPrice, second.status);
    assert [first, second][1..] == [second] && [second][1..] == [];
    assert Trade(b1, [second]) == Trade(b2, []) == b2;
    assert Trade(b, [first, second]) == b2;
    assert b1.Net(c) == b.Net(c) - first.n && b2.Net(c) == b1.Net(c) - second.n;
  }

  /** When no SELL of `c` is pending, a whole call, its stale BUYs cancelled or not, lets the venue go
      short exactly when a SELL of `c` that the process does not watch has something left to sell. An
      overlapping call that has not registered yet, or a process not reconciled yet, is what leaves
      one; the two assumptions on callers rule out both. */
  lemma SaleShortIffUnwatched(s: State, c: Contract, reason: string, answers: OrderId -> bool, cancels: seq<Step>, id: OrderId)
    requires s.b.NeverShort() && PendingNamed(s.b, s.p.pending) && s.b.Net(c) > 0 && id !in s.b.orders
    requires Enters(s, c, reason, answers, cancels)
    ensures var t := Run(s, [SellBegin(c, reason)] + cancels + [SellSize(c, true), SellSubmit(c, id, true)]);
      && t.b.OpenSell(id) && t.b.orders[id].contract == c && t.b.orders[id].qty == s.b.Net(c)
      && (CanGoShort(t.b, c) <==> exists i :: Unfinished(s.b, c, i))
  {
    var entered := [SellBegin(c, reason)] + cancels;
    EntersAndCancels(s, c, reason, answers, cancels);
    var mid := Run(s, entered);
    var sized := Apply(mid, SellSize(c, true));
    var t := Apply(sized, SellSubmit(c, id, true));
    assert [SellSize(c, true), SellSubmit(c, id, true)][1..] == [SellSubmit(c, id, true)];
    RunAppend(s, entered, [SellSize(c, true), SellSubmit(c, id, true)]);
    RunOne(sized, SellSubmit(c, id, true));
    assert t.b == mid.b.Submit(id, c, Sell, s.b.Net(c));
    CancelsSpareSells(s.b, mid.b, s.p.pending, c, answers);
    if i :| Unfinished(s.b, c, i) {
      assert Unfinished(t.b, c, i);
      TwoSellsGoShort(t.b, c, i, id);
    } else {
      assert t.b.Net(c) == s.b.Net(c);
      forall i | Unfinished(t.b, c, i) ensures i == id {
        assert i != id ==> Unfinished(mid.b, c, i);
      }
      assert OnlyCovered(t.b, c, id);
      forall fills ensures Trade(t.b, fills).Net(c) >= 0 {
        TradeKeepsCovered(t.b, c, id, fills);
      }
    }
  }

  lemma CancelsSpareSells(b: Broker, b': Broker, pending: map<OrderId, Ctx>, c: Contract, answers: OrderId -> bool)
    requires PendingNamed(b, pending) && AfterCancels(b, b', BuysPending(pending, c), answers)
    ensures forall i :: Unfinished(b', c, i) <==> Unfinished(b, c, i)
    ensures forall i :: i in b.orders ==> b'.orders[i].filled == b.orders[i].filled && b'.orders[i].qty == b.orders[i].qty
    ensures b'.Net(c) == b.Net(c)
  {
    forall i | i in BuysPending(pending, c) ensures i in b.orders && b.orders[i].side == Buy {
      assert Names(b, i, pending[i]);
    }
  }
}
