/** The threads of the process, which steps are whose, and what the steps of one leave alone in the
    others. */
module ThreadFrames {
  import opened Wrappers
  import opened OptionBroker
  import opened OptionProtocol

  /** The threads of the process: the fill poll, one sell_option call per contract, the buy_option
      calls and the reconcile loop. */
  datatype Thread = PollLoop | Seller(contract: Contract) | Buyer(tid: nat) | Reconciler

  predicate Belongs(st: Step, th: Thread) {
    match th
    case PollLoop => IsPollStep(st)
    case Seller(c) => IsSellStep(st) && st.contract == c
    case Buyer(tid) => IsBuyStep(st) && st.tid == tid
    case Reconciler => IsReconStep(st)
  }

  /** What the rest of the world may do during a call of `th`, within one process life. */
  predicate Foreign(env: seq<Step>, th: Thread) {
    forall k :: 0 <= k < |env| ==> !env[k].Crash? && !Belongs(env[k], th)
  }

  function Head(st: Step, th: Thread): seq<Step> {
    if Belongs(st, th) then [st] else []
  }

  /** The steps of a run that `th` took itself. */
  function Own(trace: seq<Step>, th: Thread): seq<Step> {
    if trace == [] then [] else Head(trace[0], th) + Own(trace[1..], th)
  }

  lemma {:induction false} OwnAppend(first: seq<Step>, second: seq<Step>, th: Thread)
    ensures Own(first + second, th) == Own(first, th) + Own(second, th)
  {
    if first == [] {
      assert first + second == second;
    } else {
      assert (first + second)[1..] == first[1..] + second && (first + second)[0] == first[0];
      OwnAppend(first[1..], second, th);
      Regroup(Head(first[0], th), Own(first[1..], th), Own(second, th));
    }
  }

  lemma Regroup(a: seq<Step>, b: seq<Step>, c: seq<Step>)
    ensures a + (b + c) == a + b + c
  {
  }

  lemma {:induction false} OwnForeign(env: seq<Step>, th: Thread)
    requires Foreign(env, th)
    ensures Own(env, th) == []
  {
    if env != [] {
      OwnForeign(env[1..], th);
    }
  }

  // ----- what the steps of each thread leave alone

  ghost predicate SamePoll(p: Proc, q: Proc) {
    q.poll == p.poll && q.events == p.events && q.inserts == p.inserts
  }

  ghost predicate SameSell(p: Proc, q: Proc, c: Contract) {
    c in p.sells ==> c in q.sells && q.sells[c] == p.sells[c]
  }

  ghost predicate SameBuy(p: Proc, q: Proc, tid: nat) {
    tid in p.buys ==> tid in q.buys && q.buys[tid] == p.buys[tid]
  }

  ghost predicate PollOnly(p: Proc, q: Proc) {
    q.buys == p.buys && q.sells == p.sells && q.recon == p.recon
  }

  ghost predicate BuyOnly(p: Proc, q: Proc, tid: nat) {
    SamePoll(p, q) && q.sells == p.sells && q.recon == p.recon && forall t :: t != tid ==> SameBuy(p, q, t)
  }

  ghost predicate SellOnly(p: Proc, q: Proc, c: Contract) {
    SamePoll(p, q) && q.buys == p.buys && q.recon == p.recon && forall d :: d != c ==> SameSell(p, q, d)
  }

  ghost predicate ReconOnly(p: Proc, q: Proc) {
    SamePoll(p, q) && q.buys == p.buys && q.sells == p.sells
  }

  lemma PollCommitTouches(p: Proc)
    ensures PollOnly(p, PollCommitStep(p))
  {
  }

  lemma PollMovesTouch(s: State, ids: seq<OrderId>, ok: bool)
    ensures PollOnly(s.p, PollBeginStep(s.p, ids))
    ensures PollOnly(s.p, PollReadStep(s.b, s.p, ok))
    ensures PollOnly(s.p, PollRecheckStep(s.p))
    ensures PollOnly(s.p, PollStoreStep(s, ok).p)
  {
  }

  lemma BuyAdmitTouches(p: Proc, tid: nat, c: Contract, terms: Terms, qty: nat)
    ensures BuyOnly(p, BuyAdmitStep(p, tid, c, terms, qty), tid)
  {
  }

  lemma BuyChecksTouch(b: Broker, p: Proc, tid: nat, ok: bool)
    ensures BuyOnly(p, BuyCheckMemoryStep(p, tid), tid)
    ensures BuyOnly(p, BuyCheckBrokerStep(b, p, tid, ok), tid)
  {
  }

  lemma BuyEndsTouch(p: Proc, tid: nat)
    ensures BuyOnly(p, BuyGiveUpStep(p, tid), tid)
    ensures BuyOnly(p, BuyRegisterStep(p, tid), tid)
  {
  }

  lemma BuySubmitTouches(s: State, tid: nat, id: OrderId)
    ensures BuyOnly(s.p, BuySubmitStep(s, tid, id).p, tid)
  {
  }

  lemma SellBeginTouches(p: Proc, c: Contract, reason: string)
    ensures SellOnly(p, SellBeginStep(p, c, reason), c)
  {
  }

  lemma SellCancelTouches(s: State, c: Contract, id: OrderId, ok: bool)
    ensures SellOnly(s.p, SellCancelStep(s, c, id, ok).p, c)
  {
  }

  lemma SellSizeTouches(s: State, c: Contract, ok: bool)
    ensures SellOnly(s.p, SellSizeStep(s.b, s.p, c, ok), c)
  {
  }

  lemma SellSubmitTouches(s: State, c: Contract, id: OrderId, ok: bool)
    ensures SellOnly(s.p, SellSubmitStep(s, c, id, ok).p, c)
  {
  }

  lemma SellRegisterTouches(p: Proc, c: Contract)
    ensures SellOnly(p, SellRegisterStep(p, c), c)
  {
  }

  lemma ReconReadsTouch(s: State, ok: bool)
    ensures ReconOnly(s.p, ReconRowsStep(s, ok))
    ensures ReconOnly(s.p, ReconOrdersStep(s.b, s.p, ok))
  {
  }

  lemma ReconEndsTouch(b: Broker, p: Proc)
    ensures ReconOnly(p, ReconBeginStep(b, p)) && ReconOnly(p, ReconFinishStep(p))
  {
  }

  lemma ReconRestoreTouches(p: Proc, c: Contract, entry: Option<(Terms, real)>)
    ensures ReconOnly(p, ReconRestoreStep(p, c, entry))
  {
  }

  lemma ReconRegisterTouches(p: Proc, id: OrderId, parsed: Option<Terms>)
    ensures ReconOnly(p, ReconRegisterStep(p, id, parsed))
  {
  }

  lemma PollTouches(s: State, st: Step)
    requires IsPollStep(st)
    ensures PollOnly(s.p, Apply(s, st).p)
  {
    match st
    case PollBegin(ids) => PollMovesTouch(s, ids, true);
    case PollRead(ok) => PollMovesTouch(s, [], ok);
    case PollCommit => PollCommitTouches(s.p);
    case PollRecheck => PollMovesTouch(s, [], true);
    case PollStore(ok) => PollMovesTouch(s, [], ok);
  }

  lemma BuyTouches(s: State, st: Step)
    requires IsBuyStep(st)
    ensures BuyOnly(s.p, Apply(s, st).p, st.tid)
  {
    match st
    case BuyAdmit(tid, c, terms, qty) => BuyAdmitTouches(s.p, tid, c, terms, qty);
    case BuyCheckMemory(tid) => BuyChecksTouch(s.b, s.p, tid, true);
    case BuyCheckBroker(tid, ok) => BuyChecksTouch(s.b, s.p, tid, ok);
    case BuyGiveUp(tid) => BuyEndsTouch(s.p, tid);
    case BuySubmit(tid, id) => BuySubmitTouches(s, tid, id);
    case BuyRegister(tid) => BuyEndsTouch(s.p, tid);
  }

  lemma SellTouches(s: State, st: Step)
    requires IsSellStep(st)
    ensures SellOnly(s.p, Apply(s, st).p, st.contract)
  {
    match st
    case SellBegin(c, reason) => SellBeginTouches(s.p, c, reason);
    case SellCancel(c, id, ok) => SellCancelTouches(s, c, id, ok);
    case SellSize(c, ok) => SellSizeTouches(s, c, ok);
    case SellSubmit(c, id, ok) => SellSubmitTouches(s, c, id, ok);
    case SellRegister(c) => SellRegisterTouches(s.p, c);
  }

  lemma ReconReads(s: State, st: Step)
    requires st.ReconBegin? || st.ReconRows? || st.ReconOrders? || st.ReconFinish?
    ensures ReconOnly(s.p, Apply(s, st).p)
  {
    match st
    case ReconBegin => ReconEndsTouch(s.b, s.p);
    case ReconRows(ok) => ReconReadsTouch(s, ok);
    case ReconOrders(ok) => ReconReadsTouch(s, ok);
    case ReconFinish => ReconEndsTouch(s.b, s.p);
  }

  lemma ReconTouches(s: State, st: Step)
    requires IsReconStep(st)
    ensures ReconOnly(s.p, Apply(s, st).p)
  {
    match st
    case ReconRestore(c, entry) => ReconRestoreTouches(s.p, c, entry);
    case ReconRegister(id, parsed) => ReconRegisterTouches(s.p, id, parsed);
    case _ => ReconReads(s, st);
  }

  /** The program point of `th` is where it was. */
  ghost predicate SamePoint(p: Proc, q: Proc, th: Thread) {
    match th
    case PollLoop => SamePoll(p, q)
    case Seller(c) => SameSell(p, q, c)
    case Buyer(tid) => SameBuy(p, q, tid)
    case Reconciler => q.recon == p.recon
  }

  lemma OtherKeeps(s: State, st: Step, th: Thread)
    requires !st.Crash? && !Belongs(st, th)
    ensures SamePoint(s.p, Apply(s, st).p, th)
  {
    if st.BrokerAdvance? {
    } else if IsPollStep(st) {
      PollTouches(s, st);
    } else if IsBuyStep(st) {
      BuyTouches(s, st);
    } else if IsSellStep(st) {
      SellTouches(s, st);
    } else {
      ReconTouches(s, st);
    }
  }

  lemma {:induction false} OthersKeep(s: State, env: seq<Step>, th: Thread)
    requires Foreign(env, th)
    ensures SamePoint(s.p, Run(s, env).p, th)
    decreases |env|
  {
    if env != [] {
      OtherKeeps(s, env[0], th);
      OthersKeep(Apply(s, env[0]), env[1..], th);
    }
  }

  lemma RunOne(s: State, st: Step)
    ensures Run(s, [st]) == Apply(s, st)
  {
    assert Run(Apply(s, st), []) == Apply(s, st);
  }

  lemma RunSnoc(s: State, steps: seq<Step>, st: Step)
    ensures Run(s, steps + [st]) == Apply(Run(s, steps), st)
  {
    RunAppend(s, steps, [st]);
    RunOne(Run(s, steps), st);
  }

  lemma RunThree(s: State, a: Step, b: Step, d: Step)
    ensures Run(s, [a, b, d]) == Apply(Apply(Apply(s, a), b), d)
  {
    var s1 := Apply(s, a);
    assert [a, b, d][1..] == [b, d] && [b, d][1..] == [d];
    RunOne(Apply(s1, b), d);
    assert Run(s1, [b, d]) == Run(Apply(s1, b), [d]);
  }

  /** `steps`, all within one process life, lead from `s` to `t`. */
  ghost predicate Lives(s: State, steps: seq<Step>, t: State) {
    t == Run(s, steps) && OneLife(steps)
  }

  // ----- the cancels of a sell_option call

  /** `steps` asks the venue to cancel each order of `ids` once. */
  ghost predicate CancelsAll(steps: seq<Step>, ids: set<OrderId>, c: Contract, answers: OrderId -> bool) {
    if steps == [] then ids == {}
    else var last := steps[|steps| - 1];
      && last.SellCancel? && last.id in ids && last == SellCancel(c, last.id, answers(last.id))
      && CancelsAll(steps[..|steps| - 1], ids - {last.id}, c, answers)
  }

  lemma CancelsOneMore(steps: seq<Step>, ids: set<OrderId>, c: Contract, answers: OrderId -> bool, id: OrderId)
    requires CancelsAll(steps, ids, c, answers) && id !in ids
    ensures CancelsAll(steps + [SellCancel(c, id, answers(id))], ids + {id}, c, answers)
  {
    var more := steps + [SellCancel(c, id, answers(id))];
    assert more[..|more| - 1] == steps;
    assert ids + {id} - {id} == ids;
  }
}
