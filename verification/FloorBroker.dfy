/** The option functions of the Floor Broker as they are written: methods that update the module's
    maps in place, one lock section or network call at a time, with the other threads running in
    between. Each method is shown to be a run of the step system, its own steps interleaved with
    whatever the other threads do, so every invariant of runs holds of it. */
module FloorBroker {
  import opened Wrappers
  import opened OptionBroker
  import opened OptionProtocol
  import opened ThreadFrames
  import CallChecks
  import ClosedRows
  import SaleRegisters
  import TrueReports

  datatype SellStatus = SellSubmitted(id: OrderId) | SellSkipped | SellError
  datatype BuyStatus = BuySubmitted(id: OrderId) | BuySkipped | BuyError

  class FloorBroker {
    // the module's own state
    var positions: map<Contract, Position>
    var pending: map<OrderId, Ctx>
    var reconciled: bool
    // what its calls reach
    var venue: Broker
    var rows: seq<Row>
    // where the threads are, and what the poll has reported
    var poll: Poll
    var buys: map<nat, BuyCall>
    var sells: map<Contract, SellCall>
    var recon: Recon
    var events: seq<Event>
    var inserts: seq<OrderId>

    function Now(): State
      reads this
    {
      State(venue, Proc(positions, pending, reconciled, poll, buys, sells, recon, events, inserts), rows)
    }

    constructor Restart(venue: Broker, rows: seq<Row>)
      ensures Now() == State(venue, FRESH, rows)
    {
      this.venue, this.rows := venue, rows;
      positions, pending, reconciled := map[], map[], false;
      poll, buys, sells, recon, events, inserts := Idle, map[], map[], NotRunning, [], [];
    }

    /** The other threads, the venue and the database take their turn. */
    method Interfere(env: seq<Step>)
      modifies this
      ensures Now() == Run(old(Now()), env)
    {
      var s := Now();
      var k := 0;
      while k < |env|
        invariant 0 <= k <= |env|
        invariant Run(s, env[k..]) == Run(old(Now()), env)
      {
        assert env[k..][1..] == env[k + 1..];
        s := Apply(s, env[k]);
        k := k + 1;
      }
      venue, rows := s.b, s.rows;
      positions, pending, reconciled := s.p.positions, s.p.pending, s.p.reconciled;
      poll, buys, sells, recon, events, inserts := s.p.poll, s.p.buys, s.p.sells, s.p.recon, s.p.events, s.p.inserts;
    }

    // ----- sell_option, block by block

    method EnterSell(c: Contract, reason: string) returns (busy: bool)
      requires MaySell(Now().p, c)
      modifies this
      ensures Now() == Apply(old(Now()), SellBegin(c, reason))
      ensures busy == SellPending(old(pending), c)
    {
      busy := SellPending(pending, c);
      if !busy {
        var stale := BuysPending(pending, c);
        sells := sells[c := SellCall(reason, {}, Cancelling(stale))];
      }
    }

    method CancelBuy(c: Contract, id: OrderId, ok: bool)
      requires c in sells && sells[c].at.Cancelling? && id in sells[c].at.todo
      modifies this
      ensures Now() == Apply(old(Now()), SellCancel(c, id, ok))
      ensures c in sells && sells[c].at == Cancelling(old(sells)[c].at.todo - {id}) && sells[c].reason == old(sells)[c].reason
    {
      var call := sells[c];
      if ok && venue.CanCancel(id) {
        venue := venue.Cancel(id);
        sells := sells[c := call.(at := Cancelling(call.at.todo - {id}), canceled := call.canceled + {id})];
      } else {
        sells := sells[c := call.(at := Cancelling(call.at.todo - {id}))];
      }
    }

    /** get_open_position: a missing, empty or short position drops the tracking. */
    method SizeSell(c: Contract, ok: bool) returns (qty: Option<nat>)
      requires c in sells && sells[c].at == Cancelling({})
      modifies this
      ensures Now() == Apply(old(Now()), SellSize(c, ok))
      ensures qty == if ok && venue.Net(c) > 0 then Some(venue.Net(c)) else None
      ensures ok && qty.None? ==> NothingToSell(positions, pending, c, Some(old(venue).Net(c)))
    {
      qty := None;
      if !ok {
        sells := sells - {c};
      } else if venue.Net(c) <= 0 {
        positions := positions - {c};
        pending := WithoutContract(pending, c);
        sells := sells - {c};
      } else {
        qty := Some(venue.Net(c));
        sells := sells[c := sells[c].(at := Sized(venue.Net(c)))];
      }
    }

    method SubmitSell(c: Contract, id: OrderId)
      requires c in sells && sells[c].at.Sized? && id !in venue.orders
      modifies this
      ensures Now() == Apply(old(Now()), SellSubmit(c, id, true))
      ensures c in sells && sells[c].at == SellSent(id)
    {
      venue := venue.Submit(id, c, Sell, sells[c].at.qty);
      sells := sells[c := sells[c].(at := SellSent(id))];
    }

    method RegisterSell(c: Contract)
      requires c in sells && sells[c].at.SellSent?
      modifies this
      ensures Now() == Apply(old(Now()), SellRegister(c))
      ensures old(sells)[c].at.id in pending && c !in sells
      ensures Registered(pending, positions, old(sells)[c].at.id, c, old(sells)[c].reason)
    {
      var call := sells[c];
      var symbol := if c in positions then Some(positions[c].terms.symbol) else None;
      pending := pending - call.canceled;
      pending := pending[call.at.id := SellCtx(c, symbol, call.reason)];
      sells := sells - {c};
    }

    /** The rest of the world takes its turn during a call of `th`. */
    method Turn(th: Thread, env: seq<Step>, ghost start: State, ghost trace: seq<Step>) returns (ghost trace': seq<Step>)
      requires Lives(start, trace, Now()) && Foreign(env, th)
      modifies this
      ensures Lives(start, trace', Now()) && trace <= trace' && Own(trace', th) == Own(trace, th)
      ensures SamePoint(old(Now()).p, Now().p, th)
    {
      OthersKeep(Now(), env, th);
      Interfere(env);
      trace' := trace + env;
      RunAppend(start, trace, env);
      OwnAppend(trace, env, th);
      OwnForeign(env, th);
    }

    /** The call of `th` has just taken the step `st`. */
    ghost method Record(th: Thread, st: Step, before: State, start: State, trace: seq<Step>) returns (trace': seq<Step>)
      requires Lives(start, trace, before) && Now() == Apply(before, st) && Belongs(st, th) && !st.Crash?
      ensures Lives(start, trace', Now()) && trace' == trace + [st] && Own(trace', th) == Own(trace, th) + [st]
    {
      trace' := trace + [st];
      RunAppend(start, trace, [st]);
      RunOne(before, st);
      OwnAppend(trace, [st], th);
      assert Own([st], th) == [st];
    }

    method CancelOne(c: Contract, answers: OrderId -> bool, env: seq<Step>, ghost start: State, ghost trace: seq<Step>)
      returns (id: OrderId, ghost trace': seq<Step>)
      requires c in sells && sells[c].at.Cancelling? && sells[c].at.todo != {}
      requires Lives(start, trace, Now()) && Foreign(env, Seller(c))
      modifies this
      ensures Lives(start, trace', Now()) && trace <= trace' && Own(trace', Seller(c)) == Own(trace, Seller(c)) + [SellCancel(c, id, answers(id))]
      ensures id in old(sells)[c].at.todo
      ensures c in sells && sells[c].at == Cancelling(old(sells)[c].at.todo - {id}) && sells[c].reason == old(sells)[c].reason
    {
      var todo := sells[c].at.todo;
      id :| id in todo;
      ghost var before := Now();
      CancelBuy(c, id, answers(id));
      trace' := Record(Seller(c), SellCancel(c, id, answers(id)), before, start, trace);
      trace' := Turn(Seller(c), env, start, trace');
    }

    /** Cancels, best effort, every BUY of `c` the process is tracking. */
    method CancelStaleBuys(c: Contract, answers: OrderId -> bool, env: nat -> seq<Step>, ghost start: State, ghost trace: seq<Step>)
      returns (ghost trace': seq<Step>, ghost cancels: seq<Step>)
      requires c in sells && sells[c].at.Cancelling? && Lives(start, trace, Now())
      requires forall k :: Foreign(env(k), Seller(c))
      modifies this
      ensures Lives(start, trace', Now()) && trace <= trace' && Own(trace', Seller(c)) == Own(trace, Seller(c)) + cancels
      ensures CancelsAll(cancels, old(sells)[c].at.todo, c, answers)
      ensures c in sells && sells[c].at == Cancelling({}) && sells[c].reason == old(sells)[c].reason
    {
      trace', cancels := trace, [];
      assert Own(trace, Seller(c)) + cancels == Own(trace, Seller(c));
      ghost var done: set<OrderId> := {};
      var k: nat := 0;
      while sells[c].at.todo != {}
        invariant c in sells && sells[c].at.Cancelling? && sells[c].reason == old(sells)[c].reason
        invariant Lives(start, trace', Now()) && trace <= trace' && Own(trace', Seller(c)) == Own(trace, Seller(c)) + cancels
        invariant done !! sells[c].at.todo && done + sells[c].at.todo == old(sells)[c].at.todo
        invariant CancelsAll(cancels, done, c, answers)
        decreases |sells[c].at.todo|
      {
        var todo := sells[c].at.todo;
        var id;
        id, trace' := CancelOne(c, answers, env(k), start, trace');
        CancelsOneMore(cancels, done, c, answers, id);
        assert Own(trace, Seller(c)) + cancels + [SellCancel(c, id, answers(id))] == Own(trace, Seller(c)) + (cancels + [SellCancel(c, id, answers(id))]);
        cancels, done := cancels + [SellCancel(c, id, answers(id))], done + {id};
        assert sells[c].at.todo == todo - {id};
        k := k + 1;
      }
      assert done == old(sells)[c].at.todo;
    }

    /** Sizes the sale; when there is something to sell, other threads run before it is sent. */
    method SizeEntry(c: Contract, sizeOk: bool, env: seq<Step>, ghost start: State, ghost trace: seq<Step>)
      returns (sized: bool, ghost trace': seq<Step>)
      requires c in sells && sells[c].at == Cancelling({}) && Lives(start, trace, Now()) && Foreign(env, Seller(c))
      modifies this
      ensures Lives(start, trace', Now()) && trace <= trace' && Own(trace', Seller(c)) == Own(trace, Seller(c)) + [SellSize(c, sizeOk)]
      ensures !sized && sizeOk ==> NothingToSell(positions, pending, c, CallChecks.NetAsked(None, start, trace', c))
      ensures if sized then sizeOk && c in sells && sells[c].at.Sized? && sells[c].reason == old(sells)[c].reason else c !in sells
    {
      ghost var before := Now();
      CallChecks.NetAskedSnoc(None, start, trace, c, SellSize(c, sizeOk));
      var qty := SizeSell(c, sizeOk);
      trace' := Record(Seller(c), SellSize(c, sizeOk), before, start, trace);
      sized := qty.Some?;
      if sized {
        trace' := Turn(Seller(c), env, start, trace');
      }
    }

    /** From the venue's position to the registered SELL. `sizeOk` and `accepted` are the venue's
        answers, `id` the id it gives the order. */
    method SizeAndSend(c: Contract, sizeOk: bool, id: OrderId, accepted: bool, env: nat -> seq<Step>,
                       ghost start: State, ghost trace: seq<Step>)
      returns (status: SellStatus, ghost trace': seq<Step>, ghost tail: seq<Step>)
      requires c in sells && sells[c].at == Cancelling({}) && Lives(start, trace, Now())
      requires forall k :: Foreign(env(k), Seller(c))
      modifies this
      ensures Lives(start, trace', Now()) && trace <= trace' && c !in sells
      ensures status.SellSubmitted? ==> Registered(pending, positions, id, c, old(sells)[c].reason)
      ensures status.SellSubmitted? ==> SaleRegisters.Registers(start, trace', c, id)
      ensures status.SellSkipped? ==> NothingToSell(positions, pending, c, CallChecks.NetAsked(None, start, trace', c))
      ensures SaleTail(tail, status, c, sizeOk, id) && Own(trace', Seller(c)) == Own(trace, Seller(c)) + tail
    {
      var sized;
      sized, trace' := SizeEntry(c, sizeOk, env(0), start, trace);
      if !sized {
        status := if sizeOk then SellSkipped else SellError;
        tail := [SellSize(c, sizeOk)];
      } else {
        status, trace' := Send(c, id, accepted, env(1), start, trace');
        ghost var sent := if status.SellSubmitted? then [SellSubmit(c, id, true), SellRegister(c)] else [SellSubmit(c, id, false)];
        tail := [SellSize(c, true)] + sent;
        Regroup(Own(trace, Seller(c)), [SellSize(c, true)], sent);
      }
    }

    /** The venue takes the SELL; other threads run before it is registered. */
    method SendSell(c: Contract, id: OrderId, env: seq<Step>, ghost start: State, ghost trace: seq<Step>)
      returns (ghost trace': seq<Step>)
      requires c in sells && sells[c].at.Sized? && id !in venue.orders && Lives(start, trace, Now()) && Foreign(env, Seller(c))
      modifies this
      ensures Lives(start, trace', Now()) && trace <= trace' && c in sells && sells[c].at == SellSent(id) && sells[c].reason == old(sells)[c].reason
      ensures Own(trace', Seller(c)) == Own(trace, Seller(c)) + [SellSubmit(c, id, true)]
    {
      ghost var before := Now();
      SubmitSell(c, id);
      trace' := Record(Seller(c), SellSubmit(c, id, true), before, start, trace);
      trace' := Turn(Seller(c), env, start, trace');
    }

    method Send(c: Contract, id: OrderId, accepted: bool, env: seq<Step>, ghost start: State, ghost trace: seq<Step>)
      returns (status: SellStatus, ghost trace': seq<Step>)
      requires c in sells && sells[c].at.Sized? && Lives(start, trace, Now()) && Foreign(env, Seller(c))
      modifies this
      ensures Lives(start, trace', Now()) && trace <= trace' && c !in sells
      ensures status == SellSubmitted(id) || status == SellError
      ensures status.SellSubmitted? ==> Registered(pending, positions, id, c, old(sells)[c].reason)
      ensures status.SellSubmitted? ==> SaleRegisters.Registers(start, trace', c, id)
      ensures Own(trace', Seller(c)) == Own(trace, Seller(c))
                + (if status.SellSubmitted? then [SellSubmit(c, id, true), SellRegister(c)] else [SellSubmit(c, id, false)])
    {
      if accepted && id !in venue.orders {
        trace' := SendSell(c, id, env, start, trace);
        ghost var before := Now();
        RegisterSell(c);
        SaleRegisters.RegistersLast(start, trace', c, id, before);
        trace' := Record(Seller(c), SellRegister(c), before, start, trace');
        status := SellSubmitted(id);
        assert Own(trace, Seller(c)) + [SellSubmit(c, id, true)] + [SellRegister(c)]
            == Own(trace, Seller(c)) + [SellSubmit(c, id, true), SellRegister(c)];
      } else {
        ghost var before := Now();
        sells := sells - {c};
        trace' := Record(Seller(c), SellSubmit(c, id, false), before, start, trace);
        status := SellError;
      }
    }

    /** `answers`, `sizeOk`, `id` and `accepted` are the venue's replies; `stale` and `env` are what
        the rest of the world does while the BUYs are cancelled and between the other blocks. */
    method SellOption(c: Contract, reason: string, answers: OrderId -> bool, sizeOk: bool, id: OrderId, accepted: bool,
                      stale: nat -> seq<Step>, env: nat -> seq<Step>)
      returns (status: SellStatus, ghost trace: seq<Step>)
      requires MaySell(Now().p, c)
      requires forall k :: Foreign(env(k), Seller(c)) && Foreign(stale(k), Seller(c))
      modifies this
      ensures Lives(old(Now()), trace, Now()) && c !in sells
      ensures SellPending(old(pending), c) ==> status == SellSkipped && Now() == old(Now())
      ensures status.SellSubmitted? ==> Registered(pending, positions, id, c, reason)
      ensures Sale(Own(trace, Seller(c)), status, c, reason, answers, sizeOk, id, old(pending))
      ensures TrueReports.Sound(old(Now())) && status.SellSubmitted? ==> SaleRegisters.DropsConfirmed(old(Now()), trace, Now(), c)
      ensures status.SellSkipped? && !SellPending(old(pending), c) ==>
        NothingToSell(positions, pending, c, CallChecks.NetAsked(None, old(Now()), trace, c))
      ensures status.SellSubmitted? ==> SoldAll(venue, c, id, CallChecks.NetAsked(None, old(Now()), trace, c))
      ensures TrueReports.Sound(old(Now())) ==> TrueReports.Sound(Now())
    {
      ghost var start := Now();
      var busy := EnterSell(c, reason);
      trace := Record(Seller(c), SellBegin(c, reason), start, start, []);
      assert Own([], Seller(c)) + [SellBegin(c, reason)] == [SellBegin(c, reason)];
      if busy {
        status := SellSkipped;
        assert SaleShape([SellBegin(c, reason)], status, c, reason, answers, sizeOk, id, [], {}, []);
      } else {
        ghost var ids := sells[c].at.todo;
        assert Stale(old(pending), c, ids);
        trace := Turn(Seller(c), env(0), start, trace);
        ghost var cancels;
        trace, cancels := CancelStaleBuys(c, answers, stale, start, trace);
        ghost var tail;
        status, trace, tail := SizeAndSend(c, sizeOk, id, accepted, (k: nat) => env(k + 1), start, trace);
        assert SaleShape(Own(trace, Seller(c)), status, c, reason, answers, sizeOk, id, cancels, ids, tail);
        if status.SellSubmitted? {
          CallChecks.SaleSellsAll(start, trace, c, id);
        }
        SaleCallDrops(start, trace, c, reason, answers, sizeOk, id, status, cancels, ids, tail);
      }
      TrueReports.LifeKeepsSound(start, trace, Now());
    }

    // ----- buy_option

    /** The in-memory half of the duplicate check. */
    method CheckDuplicate(tid: nat) returns (duplicate: bool)
      requires tid in buys && buys[tid].at.Admitted?
      modifies this
      ensures Now() == Apply(old(Now()), BuyCheckMemory(tid))
      ensures duplicate <==> BuysPending(pending, old(buys)[tid].contract) != {} || old(buys)[tid].contract in positions
      ensures if duplicate then tid !in buys else tid in buys && buys[tid] == old(buys)[tid].(at := MemoryChecked)
    {
      var c := buys[tid].contract;
      var buyInFlight := BuysPending(pending, c) != {};
      var tracked := c in positions;
      duplicate := buyInFlight || tracked;
      if duplicate {
        buys := buys - {tid};
      } else {
        buys := buys[tid := buys[tid].(at := MemoryChecked)];
      }
    }

    /** The venue half: an API error counts as no position. */
    method CheckHolding(tid: nat, ok: bool) returns (holding: bool)
      requires tid in buys && buys[tid].at.MemoryChecked?
      modifies this
      ensures Now() == Apply(old(Now()), BuyCheckBroker(tid, ok))
      ensures holding <==> ok && venue.Net(old(buys)[tid].contract) != 0
      ensures if holding then tid !in buys else tid in buys && buys[tid] == old(buys)[tid].(at := Cleared)
    {
      holding := ok && venue.Net(buys[tid].contract) != 0;
      if holding {
        buys := buys - {tid};
      } else {
        buys := buys[tid := buys[tid].(at := Cleared)];
      }
    }

    method SubmitBuy(tid: nat, id: OrderId)
      requires tid in buys && buys[tid].at.Cleared? && id !in venue.orders
      modifies this
      ensures Now() == Apply(old(Now()), BuySubmit(tid, id))
      ensures tid in buys && buys[tid] == old(buys)[tid].(at := Sent(id))
    {
      venue := venue.Submit(id, buys[tid].contract, Buy, buys[tid].qty);
      buys := buys[tid := buys[tid].(at := Sent(id))];
    }

    method RegisterBuy(tid: nat)
      requires tid in buys && buys[tid].at.Sent?
      modifies this
      ensures Now() == Apply(old(Now()), BuyRegister(tid))
      ensures tid !in buys && old(buys)[tid].at.id in pending
      ensures pending[old(buys)[tid].at.id] == BuyCtx(old(buys)[tid].contract, old(buys)[tid].terms, old(buys)[tid].qty, false)
    {
      var call := buys[tid];
      pending := pending[call.at.id := BuyCtx(call.contract, call.terms, call.qty, false)];
      buys := buys - {tid};
    }

    method SendBuy(tid: nat, id: OrderId, accepted: bool, env: seq<Step>, ghost start: State, ghost trace: seq<Step>)
      returns (status: BuyStatus, ghost trace': seq<Step>)
      requires tid in buys && buys[tid].at.Cleared? && Lives(start, trace, Now()) && Foreign(env, Buyer(tid))
      modifies this
      ensures Lives(start, trace', Now()) && trace <= trace' && tid !in buys
      ensures status == (if accepted && id !in old(venue).orders then BuySubmitted(id) else BuyError)
      ensures status.BuySubmitted? ==> id in pending && pending[id] == BuyCtx(old(buys)[tid].contract, old(buys)[tid].terms, old(buys)[tid].qty, false)
      ensures status.BuySubmitted? ==> CallChecks.RegistersBuy(start, trace', tid, id)
      ensures Own(trace', Buyer(tid)) == Own(trace, Buyer(tid))
                + (if status.BuySubmitted? then [BuySubmit(tid, id), BuyRegister(tid)] else [BuyGiveUp(tid)])
    {
      ghost var before := Now();
      if accepted && id !in venue.orders {
        SubmitBuy(tid, id);
        trace' := Record(Buyer(tid), BuySubmit(tid, id), before, start, trace);
        trace' := Turn(Buyer(tid), env, start, trace');
        before := Now();
        RegisterBuy(tid);
        CallChecks.RegistersBuyLast(start, trace', tid, id, before);
        trace' := Record(Buyer(tid), BuyRegister(tid), before, start, trace');
        status := BuySubmitted(id);
      } else {
        buys := buys - {tid};
        trace' := Record(Buyer(tid), BuyGiveUp(tid), before, start, trace);
        status := BuyError;
      }
    }

    /** `lookupOk`, `id` and `accepted` are the venue's replies; `accepted` is false for every skip
        after the duplicate checks as well as for a refused submit. */
    method BuyOption(tid: nat, c: Contract, terms: Terms, qty: nat, lookupOk: bool, id: OrderId, accepted: bool,
                     env: nat -> seq<Step>)
      returns (status: BuyStatus, ghost trace: seq<Step>)
      requires tid !in buys
      requires forall k :: Foreign(env(k), Buyer(tid))
      modifies this
      ensures Lives(old(Now()), trace, Now())
      ensures !old(reconciled) ==> status == BuySkipped && Now() == old(Now())
      ensures old(reconciled) ==> tid !in buys && BuyShape(Own(trace, Buyer(tid)), status, tid, c, terms, qty, lookupOk, id)
      ensures status.BuySubmitted? ==> id in pending && pending[id] == BuyCtx(c, terms, qty, false)
      ensures status.BuySubmitted? ==> CallChecks.BuyPassed(old(Now()), trace, Now(), tid, id)
      ensures old(reconciled) && status.BuySkipped? ==> CallChecks.FoundDuplicate(CallChecks.ChecksOf(CallChecks.UNCHECKED, old(Now()), trace, tid))
      ensures TrueReports.Sound(old(Now())) ==> TrueReports.Sound(Now())
    {
      ghost var start := Now();
      if !reconciled {
        return BuySkipped, [];
      }
      buys := buys[tid := BuyCall(c, terms, qty, Admitted)];
      trace := Record(Buyer(tid), BuyAdmit(tid, c, terms, qty), start, start, []);
      trace := Turn(Buyer(tid), env(0), start, trace);
      ghost var before := Now();
      var duplicate := CheckDuplicate(tid);
      trace := Record(Buyer(tid), BuyCheckMemory(tid), before, start, trace);
      assert Own(trace, Buyer(tid)) == [BuyAdmit(tid, c, terms, qty), BuyCheckMemory(tid)];
      if duplicate {
        status := BuySkipped;
      } else {
        trace := Turn(Buyer(tid), env(1), start, trace);
        status, trace := FinishBuy(tid, lookupOk, id, accepted, env, start, trace);
      }
      BuyCallChecked(start, trace, status, tid, c, terms, qty, lookupOk, id);
      TrueReports.LifeKeepsSound(start, trace, Now());
    }

    method FinishBuy(tid: nat, lookupOk: bool, id: OrderId, accepted: bool, env: nat -> seq<Step>,
                     ghost start: State, ghost trace: seq<Step>)
      returns (status: BuyStatus, ghost trace': seq<Step>)
      requires tid in buys && buys[tid].at.MemoryChecked? && Lives(start, trace, Now())
      requires forall k :: Foreign(env(k), Buyer(tid))
      modifies this
      ensures Lives(start, trace', Now()) && trace <= trace' && tid !in buys
      ensures status.BuySubmitted? ==> id in pending && pending[id] == BuyCtx(old(buys)[tid].contract, old(buys)[tid].terms, old(buys)[tid].qty, false)
      ensures status.BuySubmitted? ==> CallChecks.RegistersBuy(start, trace', tid, id)
      ensures exists tail :: Own(trace', Buyer(tid)) == Own(trace, Buyer(tid)) + tail && BuyTail(tail, status, tid, lookupOk, id)
    {
      ghost var before := Now();
      var holding := CheckHolding(tid, lookupOk);
      trace' := Record(Buyer(tid), BuyCheckBroker(tid, lookupOk), before, start, trace);
      if holding {
        status := BuySkipped;
        assert BuyTail([BuyCheckBroker(tid, lookupOk)], status, tid, lookupOk, id);
      } else {
        trace' := Turn(Buyer(tid), env(2), start, trace');
        status, trace' := SendBuy(tid, id, accepted, env(3), start, trace');
        ghost var tail := [BuyCheckBroker(tid, lookupOk)]
                          + (if status.BuySubmitted? then [BuySubmit(tid, id), BuyRegister(tid)] else [BuyGiveUp(tid)]);
        assert Own(trace', Buyer(tid)) == Own(trace, Buyer(tid)) + tail;
        assert BuyTail(tail, status, tid, lookupOk, id);
      }
    }

    // ----- check_pending_option_fills

    /** get_order_by_id for the next entry of the snapshot. */
    method ReadOrder(ok: bool)
      requires poll.Polling? && poll.at.Ready? && poll.todo != []
      modifies this
      ensures Now() == Apply(old(Now()), PollRead(ok))
      ensures events == old(events) && poll.Polling? && poll.todo == old(poll).todo[1..] && (poll.at.Ready? || (ok && poll.at.Seen?))
    {
      var (id, ctx) := poll.todo[0];
      var rest := poll.todo[1..];
      if !ok {
        poll := Polling(rest, Ready);
      } else if id !in venue.orders {
        pending := pending - {id};
        poll := Polling(rest, Ready);
      } else {
        poll := Polling(rest, Seen(id, ctx, venue.orders[id]));
      }
    }

    /** The SELL branch, up to the end of its lock section. */
    method CommitSell()
      requires poll.Polling? && poll.at.Seen? && poll.at.ctx.SellCtx?
      modifies this
      ensures Now() == Apply(old(Now()), PollCommit)
      ensures events == old(events) && poll.Polling? && poll.todo == old(poll).todo && (poll.at.Ready? || poll.at.Storing?)
    {
      var Seen(id, ctx, order) := poll.at;
      var todo := poll.todo;
      var isTerminal := !order.Open();
      if order.filled > 0 {
        if !isTerminal || id !in pending {
          poll := Polling(todo, Ready);
        } else {
          var c := ctx.contract;
          var trackedQty := if c in positions then positions[c].qty else 0;
          var entryPremium := if c in positions then positions[c].entryPremium else 0.0;
          var remainingQty := trackedQty - order.filled;
          var op;
          if remainingQty > 0 {
            positions := positions[c := positions[c].(qty := remainingQty)];
            op := UpdateRow(c, entryPremium, remainingQty);
          } else {
            positions := positions - {c};
            op := CloseRow(c, ctx.reason, order.avgPrice);
          }
          pending := pending - {id};
          poll := Polling(todo, Storing(Some(op), Some(FillEvent(id, order.avgPrice, order.filled))));
        }
      } else if isTerminal {
        pending := pending - {id};
        poll := Polling(todo, Storing(None, Some(TerminalEvent(id, order.status))));
      } else {
        poll := Polling(todo, Ready);
      }
    }

    /** The BUY branch, up to the end of its first lock section. */
    method CommitBuy()
      requires poll.Polling? && poll.at.Seen? && poll.at.ctx.BuyCtx?
      modifies this
      ensures Now() == Apply(old(Now()), PollCommit)
      ensures events == old(events) && poll.Polling? && poll.todo == old(poll).todo && !poll.at.Seen?
      ensures poll.at.Opening? ==> poll.at.ctx.BuyCtx?
    {
      var Seen(id, ctx, order) := poll.at;
      var todo := poll.todo;
      var isTerminal := !order.Open();
      if order.filled > 0 {
        if id !in pending {
          poll := Polling(todo, Ready);
        } else {
          positions := positions[ctx.contract := Position(ctx.terms, order.avgPrice, order.filled)];
          if isTerminal {
            pending := pending - {id};
          } else {
            pending := pending[id := ctx.(rowOpened := true)];
          }
          if ctx.rowOpened {
            poll := Polling(todo, Storing(Some(UpdateRow(ctx.contract, order.avgPrice, order.filled)), None));
          } else {
            poll := Polling(todo, Opening(id, ctx, order.avgPrice, order.filled));
          }
        }
      } else if isTerminal {
        pending := pending - {id};
        poll := Polling(todo, Storing(None, Some(TerminalEvent(id, order.status))));
      } else {
        poll := Polling(todo, Ready);
      }
    }

    /** The re-check that keeps a row from being opened for a position already sold. */
    method RecheckOpen()
      requires poll.Polling? && poll.at.Opening? && poll.at.ctx.BuyCtx?
      modifies this
      ensures Now() == Apply(old(Now()), PollRecheck)
      ensures events == old(events) && poll.Polling? && poll.todo == old(poll).todo && poll.at.Storing?
    {
      var Opening(id, ctx, price, qty) := poll.at;
      var stillOpen := ctx.contract in positions;
      var op := if stillOpen then Some(OpenRow(id, Row(ctx.contract, ctx.terms, price, qty, None))) else None;
      poll := Polling(poll.todo, Storing(op, Some(FillEvent(id, price, qty))));
    }

    /** The DB call, which swallows its own failure, and events.append. */
    method StoreAndReport(ok: bool) returns (event: Option<Event>)
      requires poll.Polling? && poll.at.Storing?
      modifies this
      ensures Now() == Apply(old(Now()), PollStore(ok))
      ensures events == old(events) + (if event.Some? then [event.value] else [])
      ensures poll == Polling(old(poll).todo, Ready)
    {
      var Storing(op, e) := poll.at;
      event := e;
      if op.Some? {
        if ok {
          rows := ApplyDb(rows, op.value);
        }
        if op.value.OpenRow? {
          inserts := inserts + [op.value.id];
        }
      }
      if event.Some? {
        events := events + [event.value];
      }
      poll := Polling(poll.todo, Ready);
    }

    /** One entry of the snapshot: read it, commit what it shows, store and report it. */
    method PollEntry(ok: bool, writeOk: bool, env: nat -> seq<Step>, ghost start: State, ghost trace: seq<Step>)
      returns (event: Option<Event>, ghost trace': seq<Step>, ghost visit: seq<Step>)
      requires poll.Polling? && poll.at.Ready? && poll.todo != [] && Lives(start, trace, Now())
      requires forall k :: Foreign(env(k), PollLoop)
      modifies this
      ensures Lives(start, trace', Now()) && trace <= trace' && poll == Polling(old(poll).todo[1..], Ready)
      ensures events == old(events) + (if event.Some? then [event.value] else [])
      ensures Own(trace', PollLoop) == Own(trace, PollLoop) + visit && Visit(visit, ok, writeOk)
    {
      ghost var before := Now();
      ReadOrder(ok);
      trace' := Record(PollLoop, PollRead(ok), before, start, trace);
      event, visit := None, [PollRead(ok)];
      if poll.at.Seen? {
        trace' := Turn(PollLoop, env(0), start, trace');
        ghost var own := Own(trace', PollLoop);
        ghost var tail;
        event, trace', tail := CommitEntry(writeOk, env, start, trace');
        visit := [PollRead(ok)] + tail;
        assert own + tail == Own(trace, PollLoop) + visit;
      }
    }

    /** The DB call and the report, after the lock was released. */
    method StoreEntry(writeOk: bool, env: seq<Step>, ghost start: State, ghost trace: seq<Step>)
      returns (event: Option<Event>, ghost trace': seq<Step>)
      requires poll.Polling? && poll.at.Storing? && Lives(start, trace, Now()) && Foreign(env, PollLoop)
      modifies this
      ensures Lives(start, trace', Now()) && trace <= trace' && poll == Polling(old(poll).todo, Ready)
      ensures events == old(events) + (if event.Some? then [event.value] else [])
      ensures Own(trace', PollLoop) == Own(trace, PollLoop) + [PollStore(writeOk)]
    {
      trace' := Turn(PollLoop, env, start, trace);
      ghost var before := Now();
      event := StoreAndReport(writeOk);
      trace' := Record(PollLoop, PollStore(writeOk), before, start, trace');
    }

    /** The re-check of a BUY whose row is not open yet, once other threads had their turn. */
    method RecheckEntry(env: seq<Step>, ghost start: State, ghost trace: seq<Step>) returns (ghost trace': seq<Step>)
      requires poll.Polling? && poll.at.Opening? && poll.at.ctx.BuyCtx? && Lives(start, trace, Now()) && Foreign(env, PollLoop)
      modifies this
      ensures Lives(start, trace', Now()) && trace <= trace'
      ensures events == old(events) && poll.Polling? && poll.todo == old(poll).todo && poll.at.Storing?
      ensures Own(trace', PollLoop) == Own(trace, PollLoop) + [PollRecheck]
    {
      trace' := Turn(PollLoop, env, start, trace);
      ghost var before := Now();
      RecheckOpen();
      trace' := Record(PollLoop, PollRecheck, before, start, trace');
    }

    /** The first lock section of either branch. */
    method LockEntry(ghost start: State, ghost trace: seq<Step>) returns (ghost trace': seq<Step>)
      requires poll.Polling? && poll.at.Seen? && Lives(start, trace, Now())
      modifies this
      ensures Lives(start, trace', Now()) && trace <= trace'
      ensures events == old(events) && poll.Polling? && poll.todo == old(poll).todo && !poll.at.Seen?
      ensures poll.at.Opening? ==> poll.at.ctx.BuyCtx?
      ensures Own(trace', PollLoop) == Own(trace, PollLoop) + [PollCommit]
    {
      ghost var before := Now();
      if poll.at.ctx.SellCtx? {
        CommitSell();
      } else {
        CommitBuy();
      }
      trace' := Record(PollLoop, PollCommit, before, start, trace);
    }

    method CommitEntry(writeOk: bool, env: nat -> seq<Step>, ghost start: State, ghost trace: seq<Step>)
      returns (event: Option<Event>, ghost trace': seq<Step>, ghost tail: seq<Step>)
      requires poll.Polling? && poll.at.Seen? && Lives(start, trace, Now())
      requires forall k :: Foreign(env(k), PollLoop)
      modifies this
      ensures Lives(start, trace', Now()) && trace <= trace' && poll == Polling(old(poll).todo, Ready)
      ensures events == old(events) + (if event.Some? then [event.value] else [])
      ensures Own(trace', PollLoop) == Own(trace, PollLoop) + tail && Commit(tail, writeOk)
    {
      ghost var own := Own(trace, PollLoop);
      trace' := LockEntry(start, trace);
      event, tail := None, [PollCommit];
      if poll.at.Opening? {
        trace' := RecheckEntry(env(1), start, trace');
        assert own + tail + [PollRecheck] == own + [PollCommit, PollRecheck];
        tail := [PollCommit, PollRecheck];
      }
      if poll.at.Storing? {
        event, trace' := StoreEntry(writeOk, env(2), start, trace');
        assert own + tail + [PollStore(writeOk)] == own + (tail + [PollStore(writeOk)]);
        tail := tail + [PollStore(writeOk)];
      }
    }

    method Snapshot(ids: seq<OrderId>)
      requires poll.Idle?
      requires forall k :: 0 <= k < |ids| ==> ids[k] in pending
      requires forall k, l :: 0 <= k < l < |ids| ==> ids[k] != ids[l]
      modifies this
      ensures Now() == Apply(old(Now()), PollBegin(ids))
      ensures events == old(events) && poll.Polling? && poll.at.Ready? && |poll.todo| == |ids|
    {
      var todo: seq<(OrderId, Ctx)> := [];
      var k := 0;
      while k < |ids|
        invariant 0 <= k <= |ids| && |todo| == k
        invariant forall j :: 0 <= j < k ==> todo[j] == (ids[j], pending[ids[j]])
      {
        todo := todo + [(ids[k], pending[ids[k]])];
        k := k + 1;
      }
      poll := Polling(todo, Ready);
      ghost var spec := PollBeginStep(old(Now()).p, ids);
      assert forall id <- ids :: id in old(pending);
      assert forall j :: 0 <= j < |ids| ==> spec.poll.todo[j] == todo[j];
      assert spec.poll.todo == todo;
    }

    /** One iteration of the loop over the snapshot. */
    method PollNext(i: nat, readOk: nat -> bool, writeOk: nat -> bool, env: nat -> seq<Step>, ghost start: State,
                    ghost trace: seq<Step>,
                    ghost own: seq<Step>, ghost visits: seq<Step>)
      returns (event: Option<Event>, ghost trace': seq<Step>, ghost visits': seq<Step>)
      requires poll.Polling? && poll.at.Ready? && poll.todo != [] && Lives(start, trace, Now())
      requires forall k :: Foreign(env(k), PollLoop)
      requires Own(trace, PollLoop) == own + visits && Visits(visits, i, readOk, writeOk)
      modifies this
      ensures Lives(start, trace', Now()) && trace <= trace' && poll.Polling? && poll.at.Ready? && |poll.todo| == |old(poll).todo| - 1
      ensures events == old(events) + (if event.Some? then [event.value] else [])
      ensures Own(trace', PollLoop) == own + visits' && Visits(visits', i + 1, readOk, writeOk)
    {
      trace' := Turn(PollLoop, env(3), start, trace);
      ghost var visit;
      event, trace', visit := PollEntry(readOk(i), writeOk(i), env, start, trace');
      VisitsOneMore(own, visits, i, readOk, writeOk, visit);
      visits' := visits + visit;
    }

    /** The loop over the snapshot. */
    method PollEntries(n: nat, readOk: nat -> bool, writeOk: nat -> bool, env: (nat, nat) -> seq<Step>,
                       ghost start: State, ghost trace: seq<Step>)
      returns (reported: seq<Event>, ghost trace': seq<Step>, ghost visits: seq<Step>)
      requires poll.Polling? && poll.at.Ready? && |poll.todo| == n && Lives(start, trace, Now())
      requires forall i, k :: Foreign(env(i, k), PollLoop)
      modifies this
      ensures Lives(start, trace', Now()) && trace <= trace' && poll == Polling([], Ready)
      ensures events == old(events) + reported
      ensures Own(trace', PollLoop) == Own(trace, PollLoop) + visits && Visits(visits, n, readOk, writeOk)
    {
      reported, trace', visits := [], trace, [];
      ghost var own := Own(trace, PollLoop);
      assert own + visits == own;
      var i: nat := 0;
      while i < n
        invariant i <= n && poll.Polling? && poll.at.Ready? && |poll.todo| == n - i
        invariant Lives(start, trace', Now()) && trace <= trace' && events == old(events) + reported
        invariant Own(trace', PollLoop) == own + visits && Visits(visits, i, readOk, writeOk)
      {
        var event;
        event, trace', visits := PollNext(i, readOk, writeOk, (k: nat) => env(i, k), start, trace', own, visits);
        if event.Some? {
          reported := reported + [event.value];
        }
        i := i + 1;
      }
    }

    /** `ids` is the order in which the dict hands out its keys; `readOk` and `writeOk` say which venue
        and DB calls succeed, `env` what the rest of the world does around each of them. */
    method CheckPendingOptionFills(ids: seq<OrderId>, readOk: nat -> bool, writeOk: nat -> bool, env: (nat, nat) -> seq<Step>)
      returns (reported: seq<Event>, ghost trace: seq<Step>)
      requires poll.Idle?
      requires forall id :: id in pending <==> id in ids
      requires forall k, l :: 0 <= k < l < |ids| ==> ids[k] != ids[l]
      requires forall i, k :: Foreign(env(i, k), PollLoop)
      modifies this
      ensures Lives(old(Now()), trace, Now()) && poll.Idle?
      ensures events == old(events) + reported
      ensures exists visits :: Own(trace, PollLoop) == [PollBegin(ids)] + visits + [PollRead(true)] && Visits(visits, |ids|, readOk, writeOk)
      ensures TrueReports.Sound(old(Now())) ==> TrueReports.Sound(Now()) && TrueReports.FreshReports(venue, old(events), reported)
      ensures TrueReports.Sound(old(Now())) ==> ClosedRows.RowsTrue(venue, ClosedRows.Reasons(old(pending)), old(rows), rows)
    {
      ghost var start := Now();
      Snapshot(ids);
      trace := Record(PollLoop, PollBegin(ids), start, start, []);
      assert Own(trace, PollLoop) == [PollBegin(ids)];
      ghost var visits;
      reported, trace, visits := PollEntries(|ids|, readOk, writeOk, env, start, trace);
      ghost var before := Now();
      poll := Idle;
      trace := Record(PollLoop, PollRead(true), before, start, trace);
      PollCallCloses(start, trace, ids, visits, readOk, writeOk);
      TrueReports.LifeKeepsSound(start, trace, Now());
      TrueReports.NewReports(Now(), old(events), reported);
    }
  }

  lemma {:induction false} CancelsEnterNothing(steps: seq<Step>, ids: set<OrderId>, c: Contract, answers: OrderId -> bool)
    requires CancelsAll(steps, ids, c, answers)
    ensures SaleRegisters.NoEntry(steps, c)
  {
    if steps != [] {
      var last := steps[|steps| - 1];
      CancelsEnterNothing(steps[..|steps| - 1], ids - {last.id}, c, answers);
    }
  }

  lemma BuyCallChecked(start: State, trace: seq<Step>, status: BuyStatus, tid: nat, c: Contract, terms: Terms, qty: nat,
                       lookupOk: bool, id: OrderId)
    requires start.p.reconciled && tid !in start.p.buys && OneLife(trace) && [BuyAdmit(tid, c, terms, qty)] <= trace
    requires BuyShape(Own(trace, Buyer(tid)), status, tid, c, terms, qty, lookupOk, id) && tid !in Run(start, trace).p.buys
    requires status.BuySubmitted? ==> CallChecks.RegistersBuy(start, trace, tid, id)
    ensures status.BuySubmitted? ==> CallChecks.BuyPassed(start, trace, Run(start, trace), tid, id)
    ensures status.BuySkipped? ==> CallChecks.FoundDuplicate(CallChecks.ChecksOf(CallChecks.UNCHECKED, start, trace, tid))
  {
    if status.BuySubmitted? {
      CallChecks.RegisteredBuyPassed(start, trace, tid, c, terms, qty, id);
    } else if status.BuySkipped? {
      var rest := Own(trace[1..], Buyer(tid));
      assert trace[0] == BuyAdmit(tid, c, terms, qty);
      assert rest == ([trace[0]] + rest)[1..];
      CallChecks.EndsAreOwn(trace[1..], tid);
      CallChecks.SkippedFoundDuplicate(start, trace, tid, c, terms, qty);
    }
  }

  lemma SaleCallDrops(start: State, trace: seq<Step>, c: Contract, reason: string, answers: OrderId -> bool, sizeOk: bool,
                      id: OrderId, status: SellStatus, cancels: seq<Step>, ids: set<OrderId>, tail: seq<Step>)
    requires OneLife(trace) && c !in start.p.sells && [SellBegin(c, reason)] <= trace
    requires SaleShape(Own(trace, Seller(c)), status, c, reason, answers, sizeOk, id, cancels, ids, tail)
    requires status.SellSubmitted? ==> SaleRegisters.Registers(start, trace, c, id)
    ensures TrueReports.Sound(start) && status.SellSubmitted? ==> SaleRegisters.DropsConfirmed(start, trace, Run(start, trace), c)
  {
    if TrueReports.Sound(start) && status.SellSubmitted? {
      var rest := Own(trace[1..], Seller(c));
      assert trace[0] == SellBegin(c, reason);
      assert rest == ([SellBegin(c, reason)] + rest)[1..] == cancels + tail;
      CancelsEnterNothing(cancels, ids, c, answers);
      SaleRegisters.EntriesAreOwn(trace[1..], c);
      SaleRegisters.SaleDropsConfirmed(start, reason, trace, c, id);
    }
  }

  lemma {:induction false} VisitsBeginNothing(visits: seq<Step>, n: nat, readOk: nat -> bool, writeOk: nat -> bool)
    requires Visits(visits, n, readOk, writeOk)
    ensures ClosedRows.NoBegin(visits)
    decreases n
  {
    if n > 0 {
      var k: nat :| VisitsSplit(visits, n, readOk, writeOk, k);
      VisitsBeginNothing(visits[..k], n - 1, readOk, writeOk);
      assert visits == visits[..k] + visits[k..];
      assert forall j :: 0 <= j < |visits[k..]| ==> !visits[k..][j].PollBegin?;
    }
  }

  lemma PollCallCloses(start: State, trace: seq<Step>, ids: seq<OrderId>, visits: seq<Step>, readOk: nat -> bool, writeOk: nat -> bool)
    requires start.p.poll.Idle? && OneLife(trace) && [PollBegin(ids)] <= trace
    requires Own(trace, PollLoop) == [PollBegin(ids)] + visits + [PollRead(true)] && Visits(visits, |ids|, readOk, writeOk)
    ensures TrueReports.Sound(start) ==>
      var t := Run(start, trace); ClosedRows.RowsTrue(t.b, ClosedRows.Reasons(start.p.pending), start.rows, t.rows)
  {
    assert trace[0] == PollBegin(ids);
    var rest := Own(trace[1..], PollLoop);
    assert rest == ([PollBegin(ids)] + rest)[1..] == visits + [PollRead(true)];
    VisitsBeginNothing(visits, |ids|, readOk, writeOk);
    if TrueReports.Sound(start) {
      ClosedRows.CallClosesTruly(start, ids, trace);
    }
  }

  lemma VisitsOneMore(own: seq<Step>, visits: seq<Step>, i: nat, readOk: nat -> bool, writeOk: nat -> bool, visit: seq<Step>)
    requires Visits(visits, i, readOk, writeOk) && Visit(visit, readOk(i), writeOk(i))
    ensures Visits(visits + visit, i + 1, readOk, writeOk)
    ensures own + visits + visit == own + (visits + visit)
  {
    assert (visits + visit)[..|visits|] == visits && (visits + visit)[|visits|..] == visit;
    assert VisitsSplit(visits + visit, i + 1, readOk, writeOk, |visits|);
  }

  /** What one snapshot entry costs: a read, then a commit unless the read failed or found nothing. */
  ghost predicate Visit(visit: seq<Step>, ok: bool, writeOk: bool) {
    visit == [PollRead(ok)] || (ok && visit != [] && visit[0] == PollRead(true) && Commit(visit[1..], writeOk))
  }

  ghost predicate Commit(tail: seq<Step>, writeOk: bool) {
    || tail == [PollCommit]
    || tail == [PollCommit, PollStore(writeOk)]
    || tail == [PollCommit, PollRecheck, PollStore(writeOk)]
  }

  /** `steps` visits `n` entries, one after the other. */
  ghost predicate Visits(steps: seq<Step>, n: nat, readOk: nat -> bool, writeOk: nat -> bool)
    decreases n, 1
  {
    if n == 0 then steps == [] else exists k :: VisitsSplit(steps, n, readOk, writeOk, k)
  }

  ghost predicate VisitsSplit(steps: seq<Step>, n: nat, readOk: nat -> bool, writeOk: nat -> bool, k: nat)
    requires n > 0
    decreases n, 0
  {
    k <= |steps| && Visits(steps[..k], n - 1, readOk, writeOk) && Visit(steps[k..], readOk(n - 1), writeOk(n - 1))
  }

  /** What follows the in-memory check of a buy_option call, with the status it reports. */
  ghost predicate BuyTail(tail: seq<Step>, status: BuyStatus, tid: nat, lookupOk: bool, id: OrderId) {
    match status
    case BuySubmitted(i) => i == id && tail == [BuyCheckBroker(tid, lookupOk), BuySubmit(tid, id), BuyRegister(tid)]
    case BuySkipped => tail == [BuyCheckBroker(tid, lookupOk)]
    case BuyError => tail == [BuyCheckBroker(tid, lookupOk), BuyGiveUp(tid)]
  }

  /** The call's own steps: admitted, checked in memory, and unless that skips it, checked at the
      venue, submitted and registered. */
  ghost predicate BuyShape(own: seq<Step>, status: BuyStatus, tid: nat, c: Contract, terms: Terms, qty: nat,
                           lookupOk: bool, id: OrderId) {
    var checked := [BuyAdmit(tid, c, terms, qty), BuyCheckMemory(tid)];
    || (own == checked && status.BuySkipped?)
    || exists tail :: own == checked + tail && BuyTail(tail, status, tid, lookupOk, id)
  }

  /** The SELL is for all of the position the venue showed when the call last asked. */
  ghost predicate SoldAll(venue: Broker, c: Contract, id: OrderId, net: Option<int>) {
    net.Some? && CallChecks.SaleAsks(venue, c, id, Sell, net.value)
  }

  /** The entry of a SELL, under the symbol of the position it exits. */
  ghost predicate Registered(pending: map<OrderId, Ctx>, positions: map<Contract, Position>, id: OrderId, c: Contract, reason: string) {
    && id in pending && pending[id].SellCtx? && pending[id].contract == c && pending[id].reason == reason
    && pending[id].symbol.Some? == (c in positions) && (c in positions ==> pending[id].symbol.value == positions[c].terms.symbol)
  }

  /** Nothing of `c` is tracked any more, and the venue held none of it when asked. */
  ghost predicate NothingToSell(positions: map<Contract, Position>, pending: map<OrderId, Ctx>, c: Contract, net: Option<int>) {
    net.Some? && net.value <= 0 && c !in positions && forall i :: i in pending ==> pending[i].contract != c
  }

  /** How a sell_option call ends, with the status it reports. */
  ghost predicate SaleTail(tail: seq<Step>, status: SellStatus, c: Contract, sizeOk: bool, id: OrderId) {
    match status
    case SellSubmitted(i) => i == id && tail == [SellSize(c, true), SellSubmit(c, id, true), SellRegister(c)]
    case SellSkipped => sizeOk && tail == [SellSize(c, true)]
    case SellError => (!sizeOk && tail == [SellSize(c, false)]) || (sizeOk && tail == [SellSize(c, true), SellSubmit(c, id, false)])
  }

  ghost predicate SaleShape(own: seq<Step>, status: SellStatus, c: Contract, reason: string, answers: OrderId -> bool, sizeOk: bool,
                            id: OrderId, cancels: seq<Step>, ids: set<OrderId>, tail: seq<Step>) {
    && CancelsAll(cancels, ids, c, answers)
    && own == [SellBegin(c, reason)] + cancels + tail
    && (SaleTail(tail, status, c, sizeOk, id) || (status.SellSkipped? && cancels == [] && tail == []))
  }

  /** The call's own steps, in order: enter; then, unless a SELL is pending, ask to cancel each stale
      BUY, size from the venue, submit, register, as far as the venue's answers let it. */
  ghost predicate Sale(own: seq<Step>, status: SellStatus, c: Contract, reason: string, answers: OrderId -> bool,
                       sizeOk: bool, id: OrderId, pending: map<OrderId, Ctx>) {
    exists cancels, ids, tail ::
      SaleShape(own, status, c, reason, answers, sizeOk, id, cancels, ids, tail) && (tail != [] ==> Stale(pending, c, ids))
  }

  /** `ids` are the BUYs of `c` pending when the call entered. */
  ghost predicate Stale(pending: map<OrderId, Ctx>, c: Contract, ids: set<OrderId>) {
    forall i :: i in ids <==> i in pending && pending[i].BuyCtx? && pending[i].contract == c
  }
}
