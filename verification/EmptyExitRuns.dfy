/** Two runs from a fresh process at the end of which a BUY is open at the venue and nothing tracks it. */
module EmptyExitRuns {
  import opened Wrappers
  import opened OptionBroker
  import opened OptionProtocol
  import opened ThreadFrames
  import opened EmptyExits
  import RestartLimits

  function BuyOrder(c: Contract): Order {
    Order(c, Buy, 1, 0, 0.0, New)
  }

  const NO_ORDERS := Broker(map[], map[])

  function OneOrder(c: Contract, id: OrderId): Broker {
    Broker(map[id := BuyOrder(c)], map[])
  }

  const START := State(NO_ORDERS, FRESH, [])

  /** A process reconciled with an empty venue, and nothing tracked. */
  const RECONCILED := FRESH.(reconciled := true)

  // ----- reconcile with an empty venue

  const RECONCILE := [ReconBegin, ReconRows(true), ReconOrders(true)] + [ReconFinish]

  lemma ReadsEmpty()
    ensures Apply(Apply(START, ReconBegin), ReconRows(true)) == START.(p := FRESH.(recon := Restoring(map[], {}, {})))
  {
    assert HeldContracts(START.b) == map[] && OpenRowContracts(START.rows) == {};
    var none: map<Contract, int> := map[];
    assert none.Keys == {};
  }

  lemma ListsEmpty()
    ensures Apply(START.(p := FRESH.(recon := Restoring(map[], {}, {}))), ReconOrders(true)) == START.(p := FRESH.(recon := Registering(map[], {})))
  {
    assert OpenOrders(START.b) == map[];
  }

  lemma Reconciles()
    ensures Run(START, RECONCILE) == START.(p := RECONCILED)
  {
    ReadsEmpty();
    ListsEmpty();
    RunThree(START, ReconBegin, ReconRows(true), ReconOrders(true));
    RunSnoc(START, [ReconBegin, ReconRows(true), ReconOrders(true)], ReconFinish);
    RestartLimits.FinishOnlyFlags(START.(p := FRESH.(recon := Registering(map[], {}))));
  }

  // ----- the two halves of a BUY call

  function CheckSteps(c: Contract, terms: Terms): seq<Step> {
    [BuyAdmit(0, c, terms, 1), BuyCheckMemory(0), BuyCheckBroker(0, true)]
  }

  function CallAt(c: Contract, terms: Terms, at: BuyPoint): map<nat, BuyCall> {
    map[0 := BuyCall(c, terms, 1, at)]
  }

  lemma Checks(c: Contract, terms: Terms)
    ensures Run(START.(p := RECONCILED), CheckSteps(c, terms)) == START.(p := RECONCILED.(buys := CallAt(c, terms, Cleared)))
  {
    var s := START.(p := RECONCILED);
    RunThree(s, BuyAdmit(0, c, terms, 1), BuyCheckMemory(0), BuyCheckBroker(0, true));
    assert Apply(s, BuyAdmit(0, c, terms, 1)) == s.(p := RECONCILED.(buys := CallAt(c, terms, Admitted)));
    assert BuysPending(s.p.pending, c) == {};
    assert Apply(s.(p := RECONCILED.(buys := CallAt(c, terms, Admitted))), BuyCheckMemory(0))
        == s.(p := RECONCILED.(buys := CallAt(c, terms, MemoryChecked)));
  }

  function SendSteps(id: OrderId): seq<Step> {
    [BuySubmit(0, id), BuyRegister(0)]
  }

  lemma RunTwo(s: State, a: Step, b: Step)
    ensures Run(s, [a, b]) == Apply(Apply(s, a), b)
  {
    assert [a, b][1..] == [b];
    RunOne(Apply(s, a), b);
  }

  /** Whatever sale is under way, the call submits its BUY and registers it. */
  lemma Sends(c: Contract, terms: Terms, id: OrderId, sells: map<Contract, SellCall>)
    ensures Run(START.(p := RECONCILED.(buys := CallAt(c, terms, Cleared), sells := sells)), SendSteps(id))
         == State(OneOrder(c, id), RECONCILED.(sells := sells, pending := map[id := BuyCtx(c, terms, 1, false)]), [])
  {
    var s := START.(p := RECONCILED.(buys := CallAt(c, terms, Cleared), sells := sells));
    var sent := State(OneOrder(c, id), s.p.(buys := CallAt(c, terms, Sent(id))), []);
    RunTwo(s, BuySubmit(0, id), BuyRegister(0));
    assert Apply(s, BuySubmit(0, id)) == sent;
    assert sent.p.buys - {0} == map[];
  }

  // ----- the end of a sale that finds no position

  function Asking(c: Contract, reason: string, todo: set<OrderId>): map<Contract, SellCall> {
    map[c := SellCall(reason, {}, Cancelling(todo))]
  }

  lemma Drops(c: Contract, terms: Terms, id: OrderId, reason: string)
    ensures Apply(State(OneOrder(c, id), RECONCILED.(sells := Asking(c, reason, {}), pending := map[id := BuyCtx(c, terms, 1, false)]), []),
                  SellSize(c, true))
         == State(OneOrder(c, id), RECONCILED, [])
  {
    var p := RECONCILED.(sells := Asking(c, reason, {}), pending := map[id := BuyCtx(c, terms, 1, false)]);
    assert WithoutContract(p.pending, c) == map[] && p.sells - {c} == map[] && p.positions - {c} == map[];
  }

  // ----- first run: a refused cancel

  function RefusedSteps(c: Contract, terms: Terms, id: OrderId, reason: string): seq<Step> {
    RECONCILE + CheckSteps(c, terms) + SendSteps(id) + [SellBegin(c, reason), SellCancel(c, id, false), SellSize(c, true)]
  }

  lemma RefusedSale(c: Contract, terms: Terms, id: OrderId, reason: string)
    ensures Run(State(OneOrder(c, id), RECONCILED.(pending := map[id := BuyCtx(c, terms, 1, false)]), []),
                [SellBegin(c, reason), SellCancel(c, id, false), SellSize(c, true)])
         == State(OneOrder(c, id), RECONCILED, [])
  {
    var s := State(OneOrder(c, id), RECONCILED.(pending := map[id := BuyCtx(c, terms, 1, false)]), []);
    RunThree(s, SellBegin(c, reason), SellCancel(c, id, false), SellSize(c, true));
    assert s.p.pending[id].contract == c && BuysPending(s.p.pending, c) == {id};
    assert Apply(s, SellBegin(c, reason)) == s.(p := s.p.(sells := Asking(c, reason, {id})));
    assert {id} - {id} == {};
    assert Apply(s.(p := s.p.(sells := Asking(c, reason, {id}))), SellCancel(c, id, false)) == s.(p := s.p.(sells := Asking(c, reason, {})));
    Drops(c, terms, id, reason);
  }

  lemma ChecksAndSends(c: Contract, terms: Terms, id: OrderId)
    ensures Run(START, RECONCILE + CheckSteps(c, terms) + SendSteps(id))
         == State(OneOrder(c, id), RECONCILED.(pending := map[id := BuyCtx(c, terms, 1, false)]), [])
  {
    RunAppend(START, RECONCILE, CheckSteps(c, terms));
    RunAppend(START, RECONCILE + CheckSteps(c, terms), SendSteps(id));
    Reconciles();
    Checks(c, terms);
    Sends(c, terms, id, map[]);
  }

  /** Reconcile, buy, and sell before anything fills, with the cancel refused: the BUY stays open at the
      venue, and the process is as if it had never bought. */
  lemma LosesSightOfBuy(c: Contract, terms: Terms, id: OrderId, reason: string)
    ensures var t := Run(START, RefusedSteps(c, terms, id, reason));
      OpenBuyOf(t.b, c, id) && t.p == RECONCILED && !BuysWatched(t.b, t.p, c)
  {
    ChecksAndSends(c, terms, id);
    RunAppend(START, RECONCILE + CheckSteps(c, terms) + SendSteps(id), [SellBegin(c, reason), SellCancel(c, id, false), SellSize(c, true)]);
    RefusedSale(c, terms, id, reason);
    assert OpenBuyOf(OneOrder(c, id), c, id);
  }

  // ----- second run: a BUY registered during the sale

  function OvertakenSteps(c: Contract, terms: Terms, id: OrderId, reason: string): seq<Step> {
    RECONCILE + CheckSteps(c, terms) + [SellBegin(c, reason)] + SendSteps(id) + [SellSize(c, true)]
  }

  lemma ChecksThenSells(c: Contract, terms: Terms, reason: string)
    ensures Run(START, RECONCILE + CheckSteps(c, terms) + [SellBegin(c, reason)])
         == START.(p := RECONCILED.(buys := CallAt(c, terms, Cleared), sells := Asking(c, reason, {})))
  {
    RunAppend(START, RECONCILE, CheckSteps(c, terms));
    Reconciles();
    Checks(c, terms);
    RunSnoc(START, RECONCILE + CheckSteps(c, terms), SellBegin(c, reason));
    assert BuysPending(RECONCILED.pending, c) == {};
  }

  /** The BUY has passed its checks when the sale begins and is registered before the sale is sized: there
      was no stale BUY to cancel, and the BUY stays open at the venue with nothing tracking it. */
  lemma LosesBuyRegisteredMeanwhile(c: Contract, terms: Terms, id: OrderId, reason: string)
    ensures var begun := Run(START, RECONCILE + CheckSteps(c, terms) + [SellBegin(c, reason)]);
      var t := Run(START, OvertakenSteps(c, terms, id, reason));
      && BuysPending(begun.p.pending, c) == {} && BuysWatched(begun.b, begun.p, c)
      && OpenBuyOf(t.b, c, id) && t.p == RECONCILED && !BuysWatched(t.b, t.p, c)
  {
    var first := RECONCILE + CheckSteps(c, terms) + [SellBegin(c, reason)];
    ChecksThenSells(c, terms, reason);
    RunAppend(START, first, SendSteps(id));
    Sends(c, terms, id, Asking(c, reason, {}));
    RunSnoc(START, first + SendSteps(id), SellSize(c, true));
    Drops(c, terms, id, reason);
    assert OpenBuyOf(OneOrder(c, id), c, id);
  }
}
