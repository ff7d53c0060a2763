/** Prices and sizes of stock and crypto BUY orders: tick rounding, the two-cent clamp on the bracket
    legs, whole shares, the risk cap and the retry at the venue's own reference price. Money is exact;
    rounding to a tick takes the nearest one, and the even one of two equally near. */
module BracketOrders {
  import opened Wrappers
  import OptionBroker

  type OrderId = OptionBroker.OrderId

  // ----- ticks

  function HalfEven(y: real): (k: int)
    ensures -0.5 <= k as real - y <= 0.5
    ensures k as real - y == 0.5 || k as real - y == -0.5 ==> k % 2 == 0
  {
    var below := y.Floor;
    var part := y - below as real;
    if part < 0.5 || (part == 0.5 && below % 2 == 0) then below else below + 1
  }

  /** SEC Rule 612 (17 CFR 242.612): a cent from one dollar up, a hundredth of a cent below. */
  predicate LegalTick(p: real) {
    var ticks := if p < 1.0 then p * 10000.0 else p * 100.0;
    ticks == ticks.Floor as real
  }

  function RoundToTick(price: real): real {
    if price < 1.0 then HalfEven(price * 10000.0) as real / 10000.0 else HalfEven(price * 100.0) as real / 100.0
  }

  lemma RoundedNear(price: real)
    ensures LegalTick(RoundToTick(price))
    ensures price < 1.0 ==> -0.00005 <= RoundToTick(price) - price <= 0.00005
    ensures price >= 1.0 ==> -0.005 <= RoundToTick(price) - price <= 0.005
    ensures RoundToTick(price) > 0.0 <==> price > 0.00005
  {
    if price < 1.0 {
      var k := HalfEven(price * 10000.0);
      assert k <= 10000;
      assert RoundToTick(price) * 10000.0 == k as real;
    } else {
      var k := HalfEven(price * 100.0);
      assert k >= 100;
      assert RoundToTick(price) * 100.0 == k as real;
    }
  }

  function Max(x: real, y: real): real {
    if x < y then y else x
  }

  function Min(x: real, y: real): real {
    if y < x then y else x
  }

  function TakeProfit(ask: real, tpP: real): real {
    Max(RoundToTick(ask * tpP), RoundToTick(ask + 0.02))
  }

  function StopLoss(ask: real, slP: real): real {
    Min(RoundToTick(ask * slP), RoundToTick(ask - 0.02))
  }

  /** Both legs are legal prices and stay a cent and a half off the reference price, whatever the
      percentages are: more than the venue's one-cent minimum. */
  lemma LegsClearReference(ask: real, slP: real, tpP: real)
    ensures LegalTick(TakeProfit(ask, tpP)) && LegalTick(StopLoss(ask, slP))
    ensures TakeProfit(ask, tpP) >= ask + 0.015
    ensures StopLoss(ask, slP) <= ask - 0.015
    ensures StopLoss(ask, slP) > 0.0 <==> ask * slP > 0.00005 && ask > 0.02005
  {
    RoundedNear(ask * tpP);
    RoundedNear(ask + 0.02);
    RoundedNear(ask * slP);
    RoundedNear(ask - 0.02);
  }

  /** Within half a tick of an exact price, on either side. */
  predicate Near(price: real, exact: real) {
    if exact < 1.0 then -0.00005 <= price - exact <= 0.00005 else -0.005 <= price - exact <= 0.005
  }

  /** The take-profit is the target fraction of the reference price, or two cents above it if that is
      more, to the nearest tick. */
  lemma TakeProfitNear(ask: real, tpP: real)
    ensures Near(TakeProfit(ask, tpP), if ask * tpP < ask + 0.02 then ask + 0.02 else ask * tpP)
  {
    RoundedNear(ask * tpP);
    RoundedNear(ask + 0.02);
  }

  /** From a dollar up a price rounds to a dollar at least. */
  lemma RoundsPastDollar(price: real)
    requires price >= 1.0
    ensures RoundToTick(price) >= 1.0
  {
    assert HalfEven(price * 100.0) >= 100;
  }

  /** The stop is the stop fraction of the reference price, or two cents below it if that is less, to the
      nearest tick. */
  lemma StopLossNear(ask: real, slP: real)
    ensures Near(StopLoss(ask, slP), if ask * slP < ask - 0.02 then ask * slP else ask - 0.02)
  {
    RoundedNear(ask * slP);
    RoundedNear(ask - 0.02);
    if ask * slP >= 1.0 { RoundsPastDollar(ask * slP); }
    if ask - 0.02 >= 1.0 { RoundsPastDollar(ask - 0.02); }
  }

  // ----- one bracket order

  datatype BracketOrder = BracketOrder(qty: int, stopLoss: real, takeProfit: real)

  datatype OrderError = NoAskQuote | InsufficientQuantity | InvalidOrderParameters

  datatype Request = Ready(order: BracketOrder) | Failed(error: OrderError)

  function GetQty(ask: real, budget: real): int {
    if ask <= 0.0 then 0 else (budget / ask).Floor
  }

  /** The largest whole number of shares the budget pays for. */
  lemma QtyIsLargest(ask: real, budget: real, n: int)
    requires ask > 0.0
    ensures n as real * ask <= budget <==> n <= GetQty(ask, budget)
  {
    var shares := budget / ask;
    assert shares * ask == budget;
    if n as real <= shares {
      TimesKeeps(n as real, shares, ask);
    } else {
      assert n as real * ask > shares * ask by { TimesKeepsStrict(shares, n as real, ask); }
    }
  }

  lemma TimesKeeps(x: real, y: real, z: real)
    requires x <= y && z >= 0.0
    ensures x * z <= y * z
  {
    assert (y - x) * z >= 0.0;
  }

  lemma TimesKeepsStrict(x: real, y: real, z: real)
    requires x < y && z > 0.0
    ensures x * z < y * z
  {
    assert (y - x) * z > 0.0;
  }

  function Validate(ask: real, qty: int, budget: real, stopLoss: real, takeProfit: real): Option<OrderError> {
    if ask <= 0.0 then Some(InvalidOrderParameters)
    else if budget <= 0.0 then Some(InvalidOrderParameters)
    else if qty < 1 then Some(InsufficientQuantity)
    else if !(0.0 < stopLoss < ask < takeProfit) then Some(InvalidOrderParameters)
    else if qty as real * ask > budget then Some(InvalidOrderParameters)
    else None
  }

  lemma ValidateIff(ask: real, qty: int, budget: real, stopLoss: real, takeProfit: real)
    requires stopLoss < ask < takeProfit && qty as real * ask <= budget && (ask <= budget <==> 1 <= qty)
    ensures ask > 0.0 && 0.0 < budget < ask ==> Validate(ask, qty, budget, stopLoss, takeProfit) == Some(InsufficientQuantity)
    ensures ask > 0.0 && (budget <= 0.0 || (budget >= ask && stopLoss <= 0.0))
      ==> Validate(ask, qty, budget, stopLoss, takeProfit) == Some(InvalidOrderParameters)
    ensures budget >= ask > 0.0 && stopLoss > 0.0 ==> Validate(ask, qty, budget, stopLoss, takeProfit) == None
  {
  }

  function BracketBuy(ask: real, budget: real, slP: real, tpP: real): Request {
    if ask <= 0.0 then Failed(NoAskQuote)
    else
      var order := BracketOrder(GetQty(ask, budget), StopLoss(ask, slP), TakeProfit(ask, tpP));
      var error := Validate(ask, order.qty, budget, order.stopLoss, order.takeProfit);
      if error.None? then Ready(order) else Failed(error.value)
  }

  /** Exactly when an order is built: the budget pays for a share and the stop price is positive. The
      take-profit and the notional check never refuse anything. */
  lemma BuiltIff(ask: real, budget: real, slP: real, tpP: real)
    ensures BracketBuy(ask, budget, slP, tpP).Ready? <==> budget >= ask > 0.02005 && ask * slP > 0.00005
    ensures BracketBuy(ask, budget, slP, tpP) == Failed(NoAskQuote) <==> ask <= 0.0
    ensures BracketBuy(ask, budget, slP, tpP) == Failed(InsufficientQuantity) <==> 0.0 < budget < ask
    ensures BracketBuy(ask, budget, slP, tpP) == Failed(InvalidOrderParameters)
      <==> ask > 0.0 && (budget <= 0.0 || (budget >= ask && (ask <= 0.02005 || ask * slP <= 0.00005)))
  {
    LegsClearReference(ask, slP, tpP);
    if ask > 0.0 {
      QtyIsLargest(ask, budget, 1);
      QtyIsLargest(ask, budget, GetQty(ask, budget));
      ValidateIff(ask, GetQty(ask, budget), budget, StopLoss(ask, slP), TakeProfit(ask, tpP));
    }
  }

  /** A whole number of shares that the budget pays for, and no more than that would be. */
  ghost predicate FillsBudget(qty: int, reference: real, budget: real) {
    qty >= 1 && qty as real * reference <= budget < (qty + 1) as real * reference
  }

  lemma BuiltFillsBudget(ask: real, budget: real, slP: real, tpP: real)
    requires BracketBuy(ask, budget, slP, tpP).Ready?
    ensures FillsBudget(BracketBuy(ask, budget, slP, tpP).order.qty, ask, budget)
    ensures BracketBuy(ask, budget, slP, tpP).order.stopLoss == StopLoss(ask, slP)
  {
    QtyIsLargest(ask, budget, GetQty(ask, budget));
    QtyIsLargest(ask, budget, GetQty(ask, budget) + 1);
  }

  /** How far below its exact place, a fraction of the price or two cents off it, a stop may lie. */
  ghost predicate StopNear(ask: real, slP: real, stopLoss: real) {
    stopLoss >= ask * slP - 0.005 || stopLoss >= ask - 0.025
  }

  lemma StopNotFarBelow(ask: real, slP: real)
    ensures StopNear(ask, slP, StopLoss(ask, slP))
  {
    StopLossNear(ask, slP);
  }

  /** What `qty` shares lose between the reference price and the stop price is at most `risk`, less
      the part that `existing` carries, with half a cent a share of rounding; or two and a half cents
      a share where the clamp sets the stop. */
  ghost predicate LosesAtMost(qty: int, reference: real, stopLoss: real, risk: real, existing: real, slP: real) {
    qty as real * (reference - stopLoss) <= Max(risk - existing * (1.0 - slP) + 0.005 * qty as real, 0.025 * qty as real)
  }

  lemma LossAtStop(qty: int, reference: real, stopLoss: real, cap: real, existing: real, slP: real)
    requires qty >= 1 && qty as real * reference <= cap - existing && StopNear(reference, slP, stopLoss) && slP < 1.0
    ensures LosesAtMost(qty, reference, stopLoss, cap * (1.0 - slP), existing, slP)
  {
    var n := qty as real;
    if stopLoss >= reference * slP - 0.005 {
      TimesKeeps(reference - stopLoss, reference * (1.0 - slP) + 0.005, n);
      TimesKeeps(n * reference, cap - existing, 1.0 - slP);
      assert n * (reference * (1.0 - slP) + 0.005) == n * reference * (1.0 - slP) + 0.005 * n;
      assert (cap - existing) * (1.0 - slP) == cap * (1.0 - slP) - existing * (1.0 - slP);
    } else {
      TimesKeeps(reference - stopLoss, 0.025, n);
    }
  }

  // ----- the budget an order is sized to

  datatype Config = Config(riskBased: bool, riskPerTradeUsd: Option<real>, maxSpreadPct: Option<real>,
                           dailyProfitTarget: real, dailyLossLimit: real, maxPositions: nat, cryptoSlP: real, cryptoTpP: real)

  function CapFor(risk: real, slP: real): real
    requires slP < 1.0
  {
    risk / (1.0 - slP)
  }

  function RiskCap(slP: real, cfg: Config): Option<real> {
    if !cfg.riskBased || cfg.riskPerTradeUsd.None? || cfg.riskPerTradeUsd.value == 0.0 || !(0.0 < slP < 1.0) then None
    else Some(CapFor(cfg.riskPerTradeUsd.value, slP))
  }

  function Capped(budget: real, slP: real, cfg: Config): real {
    var cap := RiskCap(slP, cfg);
    if cap.Some? && cap.value < budget then cap.value else budget
  }

  datatype Skip =
    | StateNotReconciled | KillSwitch | ProfitTargetReached | LossLimitReached | OpenOrdersExist | PositionCap
    | MarketValueUnavailable | BudgetExhausted | NoAsk | InvalidQuote | WideSpread | InsufficientQty | InvalidOrder
    | NonUsdPair | BelowMinimum

  /** What the venue shows of a held position; its market value may be missing. */
  datatype Holding = Holding(marketValue: Option<real>)

  datatype Sized = Budget(amount: real) | NoBudget(skip: Skip)

  function RemainingBudget(budget: real, holding: Option<Holding>): Sized {
    if holding.None? then Budget(budget)
    else if holding.value.marketValue.None? then NoBudget(MarketValueUnavailable)
    else if holding.value.marketValue.value >= budget then NoBudget(BudgetExhausted)
    else Budget(budget - holding.value.marketValue.value)
  }

  function Existing(holding: Option<Holding>): real {
    if holding.Some? && holding.value.marketValue.Some? then holding.value.marketValue.value else 0.0
  }

  // ----- the stock BUY

  datatype Quote = Quote(ask: real, bid: real)

  /** The answer to a submit; `PriceRejected` is code 42210000 with a base_price. */
  datatype SubmitAnswer = Taken(id: OrderId) | PriceRejected(basePrice: real) | Refused

  /** Everything one call reads, in the order it reads it. `spreadQuote` is only asked for when a
      spread limit is configured, `ask` only when none is; each submit has its own answer. */
  datatype World = World(killSwitch: bool, dailyPnl: real, openOrders: bool, held: bool, positionCount: nat,
                         holding: Option<Holding>, spreadQuote: Quote, ask: real, first: SubmitAnswer, second: SubmitAnswer)

  datatype Outcome =
    | Submitted(id: OrderId, order: BracketOrder, reference: real)
    | SubmittedNotional(id: OrderId, notional: real)
    | Skipped(skip: Skip)
    | Raised

  function Preflight(reconciled: bool, w: World, cfg: Config): Option<Skip> {
    if !reconciled then Some(StateNotReconciled)
    else if w.killSwitch then Some(KillSwitch)
    else if w.dailyPnl >= cfg.dailyProfitTarget then Some(ProfitTargetReached)
    else if w.dailyPnl <= -cfg.dailyLossLimit then Some(LossLimitReached)
    else if w.openOrders then Some(OpenOrdersExist)
    else if !w.held && w.positionCount >= cfg.maxPositions then Some(PositionCap)
    else None
  }

  datatype Reference = Price(ask: real) | NoPrice(skip: Skip)

  function ReferencePrice(w: World, cfg: Config): Reference {
    if cfg.maxSpreadPct.None? then Price(w.ask)
    else
      var Quote(ask, bid) := w.spreadQuote;
      if ask <= 0.0 then NoPrice(NoAsk)
      else if bid <= 0.0 || bid >= ask then NoPrice(InvalidQuote)
      else if (ask - bid) / ask > cfg.maxSpreadPct.value then NoPrice(WideSpread)
      else Price(ask)
  }

  function SkipOf(error: OrderError): Skip {
    match error
    case NoAskQuote => NoAsk
    case InsufficientQuantity => InsufficientQty
    case InvalidOrderParameters => InvalidOrder
  }

  function Retry(basePrice: real, budget: real, slP: real, tpP: real, answer: SubmitAnswer): Outcome {
    match BracketBuy(basePrice, budget, slP, tpP)
    case Failed(error) => Skipped(SkipOf(error))
    case Ready(order) => if answer.Taken? then Submitted(answer.id, order, basePrice) else Raised
  }

  function SubmitBuy(order: BracketOrder, ask: real, budget: real, slP: real, tpP: real, w: World): Outcome {
    match w.first
    case Taken(id) => Submitted(id, order, ask)
    case PriceRejected(basePrice) => Retry(basePrice, budget, slP, tpP, w.second)
    case Refused => Raised
  }

  /** What the checks shared by both markets leave of the budget. */
  function Authorized(reconciled: bool, budget: real, slP: real, cfg: Config, w: World): Sized {
    if Preflight(reconciled, w, cfg).Some? then NoBudget(Preflight(reconciled, w, cfg).value) else RemainingBudget(Capped(budget, slP, cfg), w.holding)
  }

  function Bracketed(budget: real, slP: real, tpP: real, reference: Reference, w: World): Outcome {
    match reference
    case NoPrice(skip) => Skipped(skip)
    case Price(ask) =>
      match BracketBuy(ask, budget, slP, tpP)
      case Failed(error) => Skipped(SkipOf(error))
      case Ready(order) => SubmitBuy(order, ask, budget, slP, tpP, w)
  }

  function StockBuy(reconciled: bool, budget: real, slP: real, tpP: real, cfg: Config, w: World): Outcome {
    match Authorized(reconciled, budget, slP, cfg, w)
    case NoBudget(skip) => Skipped(skip)
    case Budget(remaining) => Bracketed(remaining, slP, tpP, ReferencePrice(w, cfg), w)
  }

  lemma AuthorizedBudget(reconciled: bool, budget: real, slP: real, cfg: Config, w: World)
    requires Authorized(reconciled, budget, slP, cfg, w).Budget?
    ensures Preflight(reconciled, w, cfg).None?
    ensures Authorized(reconciled, budget, slP, cfg, w).amount == Capped(budget, slP, cfg) - Existing(w.holding)
  {
  }

  /** Every submitted order, first try or retry, was built from the authorized budget at the reference
      price it is reported with. */
  lemma SubmittedFrom(reconciled: bool, budget: real, slP: real, tpP: real, cfg: Config, w: World)
    requires StockBuy(reconciled, budget, slP, tpP, cfg, w).Submitted?
    ensures var outcome := StockBuy(reconciled, budget, slP, tpP, cfg, w);
      && Authorized(reconciled, budget, slP, cfg, w).Budget?
      && BracketBuy(outcome.reference, Authorized(reconciled, budget, slP, cfg, w).amount, slP, tpP) == Ready(outcome.order)
  {
  }

  /** The legs of an order at this reference price: each where its fraction puts it, or two cents off
      where that is further, to the nearest tick; and the stop below the price, the target above it. */
  predicate LegsAt(order: BracketOrder, reference: real, slP: real, tpP: real) {
    && Near(order.stopLoss, if reference * slP < reference - 0.02 then reference * slP else reference - 0.02)
    && Near(order.takeProfit, if reference * tpP < reference + 0.02 then reference + 0.02 else reference * tpP)
    && 0.0 < order.stopLoss < reference < order.takeProfit
  }

  lemma BuiltLegs(ask: real, budget: real, slP: real, tpP: real)
    requires BracketBuy(ask, budget, slP, tpP).Ready?
    ensures LegsAt(BracketBuy(ask, budget, slP, tpP).order, ask, slP, tpP)
  {
    TakeProfitNear(ask, tpP);
    StopLossNear(ask, slP);
    LegsClearReference(ask, slP, tpP);
    BuiltIff(ask, budget, slP, tpP);
  }

  /** Every submitted order, first try or retry, has its legs where the two fractions of its own reference
      price put them. */
  lemma LegsOfSubmitted(reconciled: bool, budget: real, slP: real, tpP: real, cfg: Config, w: World)
    requires StockBuy(reconciled, budget, slP, tpP, cfg, w).Submitted?
    ensures var outcome := StockBuy(reconciled, budget, slP, tpP, cfg, w); LegsAt(outcome.order, outcome.reference, slP, tpP)
  {
    SubmittedFrom(reconciled, budget, slP, tpP, cfg, w);
    BuiltLegs(StockBuy(reconciled, budget, slP, tpP, cfg, w).reference, Authorized(reconciled, budget, slP, cfg, w).amount, slP, tpP);
  }

  /** The main result on budgets: what is held already plus what is ordered stays within the requested
      budget and the risk cap, whichever is less, and one more share would not. */
  lemma OrderWithinBudget(reconciled: bool, budget: real, slP: real, tpP: real, cfg: Config, w: World)
    requires StockBuy(reconciled, budget, slP, tpP, cfg, w).Submitted?
    ensures var outcome := StockBuy(reconciled, budget, slP, tpP, cfg, w);
      FillsBudget(outcome.order.qty, outcome.reference, Capped(budget, slP, cfg) - Existing(w.holding))
  {
    SubmittedFrom(reconciled, budget, slP, tpP, cfg, w);
    AuthorizedBudget(reconciled, budget, slP, cfg, w);
    BuiltFillsBudget(StockBuy(reconciled, budget, slP, tpP, cfg, w).reference, Authorized(reconciled, budget, slP, cfg, w).amount, slP, tpP);
  }

  lemma CappedIsLess(budget: real, slP: real, cfg: Config)
    ensures Capped(budget, slP, cfg) <= budget
    ensures var cap := RiskCap(slP, cfg); cap.Some? ==> Capped(budget, slP, cfg) <= cap.value
  {
  }

  /** The main result on risk: stopped out at its stop price, an order under a risk cap loses no more
      than the configured amount allows, up to rounding and the clamp. */
  lemma StoppedOutLoss(reconciled: bool, budget: real, slP: real, tpP: real, cfg: Config, w: World)
    requires StockBuy(reconciled, budget, slP, tpP, cfg, w).Submitted? && RiskCap(slP, cfg).Some?
    ensures var outcome := StockBuy(reconciled, budget, slP, tpP, cfg, w);
      LosesAtMost(outcome.order.qty, outcome.reference, outcome.order.stopLoss, cfg.riskPerTradeUsd.value, Existing(w.holding), slP)
  {
    SubmittedFrom(reconciled, budget, slP, tpP, cfg, w);
    AuthorizedBudget(reconciled, budget, slP, cfg, w);
    CappedIsLess(budget, slP, cfg);
    var outcome := StockBuy(reconciled, budget, slP, tpP, cfg, w);
    BuiltFillsBudget(outcome.reference, Authorized(reconciled, budget, slP, cfg, w).amount, slP, tpP);
    StopNotFarBelow(outcome.reference, slP);
    LossUnderCap(outcome.order.qty, outcome.reference, outcome.order.stopLoss, Authorized(reconciled, budget, slP, cfg, w).amount,
                 cfg.riskPerTradeUsd.value, Existing(w.holding), slP);
  }

  lemma LossUnderCap(qty: int, reference: real, stopLoss: real, budget: real, risk: real, existing: real, slP: real)
    requires FillsBudget(qty, reference, budget) && StopNear(reference, slP, stopLoss)
    requires slP < 1.0 && budget <= CapFor(risk, slP) - existing
    ensures LosesAtMost(qty, reference, stopLoss, risk, existing, slP)
  {
    var cap := CapFor(risk, slP);
    LossAtStop(qty, reference, stopLoss, cap, existing, slP);
    assert cap * (1.0 - slP) == risk;
  }

  ghost predicate LossUpTo(qty: int, ask: real, stopLoss: real, risk: real) {
    qty as real * (ask - stopLoss) <= risk
  }

  /** An order sized to `cap`, the budget at which a stop at the fraction loses cap * (1 - slP), loses
      at most that when stopped out. */
  ghost predicate KeepsRisk(ask: real, slP: real, tpP: real, cap: real) {
    var request := BracketBuy(ask, cap, slP, tpP);
    request.Ready? ==> LossUpTo(request.order.qty, ask, request.order.stopLoss, cap * (1.0 - slP))
  }

  ghost predicate HighStop(ask: real, slP: real) {
    StopLoss(ask, slP) >= ask * slP
  }

  lemma HighStopKeepsRisk(ask: real, slP: real, tpP: real, cap: real)
    requires 0.0 < slP < 1.0 && HighStop(ask, slP)
    ensures KeepsRisk(ask, slP, tpP, cap)
  {
    var request := BracketBuy(ask, cap, slP, tpP);
    if request.Ready? {
      BuiltFillsBudget(ask, cap, slP, tpP);
      LossAtHighStop(request.order.qty, ask, request.order.stopLoss, slP, cap);
    }
  }

  lemma LossAtHighStop(qty: int, ask: real, stopLoss: real, slP: real, cap: real)
    requires FillsBudget(qty, ask, cap) && slP < 1.0 && stopLoss >= ask * slP
    ensures LossUpTo(qty, ask, stopLoss, cap * (1.0 - slP))
  {
    TimesKeeps(ask - stopLoss, ask * (1.0 - slP), qty as real);
    TimesKeeps(qty as real * ask, cap, 1.0 - slP);
    assert qty as real * (ask * (1.0 - slP)) == qty as real * ask * (1.0 - slP);
  }

  /** A single share's worth already shows a stop below the fraction. */
  lemma LowStopLosesMore(ask: real, slP: real, tpP: real)
    requires ask > 0.0 && 0.0 < StopLoss(ask, slP) < ask * slP
    ensures !KeepsRisk(ask, slP, tpP, ask)
  {
    LegsClearReference(ask, slP, tpP);
    BuiltIff(ask, ask, slP, tpP);
    BuiltFillsBudget(ask, ask, slP, tpP);
    LossOfOneShare(BracketBuy(ask, ask, slP, tpP).order.qty, ask, StopLoss(ask, slP), slP);
  }

  lemma LossOfOneShare(qty: int, ask: real, stopLoss: real, slP: real)
    requires ask > 0.0 && FillsBudget(qty, ask, ask) && stopLoss < ask * slP
    ensures !LossUpTo(qty, ask, stopLoss, ask * (1.0 - slP))
  {
    if qty >= 2 {
      TimesKeeps(2.0, qty as real, ask);
    }
  }

  /** What the held position leaves of the configured risk. */
  function RiskLeft(risk: real, existing: real, slP: real): real {
    risk - existing * (1.0 - slP)
  }

  /** A stock order submitted at this price under a risk cap, first try or retry, loses at most the
      configured risk less what the held position carries. */
  ghost predicate StockKeepsRisk(ask: real, slP: real, tpP: real, budget: real, cfg: Config, w: World) {
    var outcome := StockBuy(true, budget, slP, tpP, cfg, w);
    outcome.Submitted? && outcome.reference == ask && RiskCap(slP, cfg).Some? ==>
      LossUpTo(outcome.order.qty, ask, outcome.order.stopLoss, RiskLeft(cfg.riskPerTradeUsd.value, Existing(w.holding), slP))
  }

  lemma LossShrinks(qty: int, ask: real, stopLoss: real, slP: real, budget: real, risk: real, existing: real)
    requires slP < 1.0 && budget <= CapFor(risk, slP) - existing && LossUpTo(qty, ask, stopLoss, budget * (1.0 - slP))
    ensures LossUpTo(qty, ask, stopLoss, RiskLeft(risk, existing, slP))
  {
    var cap := CapFor(risk, slP);
    TimesKeeps(budget, cap - existing, 1.0 - slP);
    assert (cap - existing) * (1.0 - slP) == cap * (1.0 - slP) - existing * (1.0 - slP);
    assert cap * (1.0 - slP) == risk;
  }

  lemma OrderKeepsRisk(order: BracketOrder, ask: real, slP: real, tpP: real, budget: real, risk: real, existing: real)
    requires 0.0 < slP < 1.0 && HighStop(ask, slP) && BracketBuy(ask, budget, slP, tpP) == Ready(order)
    requires budget <= CapFor(risk, slP) - existing
    ensures LossUpTo(order.qty, ask, order.stopLoss, RiskLeft(risk, existing, slP))
  {
    HighStopKeepsRisk(ask, slP, tpP, budget);
    LossShrinks(order.qty, ask, order.stopLoss, slP, budget, risk, existing);
  }

  lemma SubmittedUnderCap(budget: real, slP: real, tpP: real, cfg: Config, w: World)
    requires StockBuy(true, budget, slP, tpP, cfg, w).Submitted? && RiskCap(slP, cfg).Some?
    ensures var outcome := StockBuy(true, budget, slP, tpP, cfg, w); var sized := Authorized(true, budget, slP, cfg, w);
      && sized.Budget? && BracketBuy(outcome.reference, sized.amount, slP, tpP) == Ready(outcome.order)
      && sized.amount <= CapFor(cfg.riskPerTradeUsd.value, slP) - Existing(w.holding)
  {
    SubmittedFrom(true, budget, slP, tpP, cfg, w);
    AuthorizedBudget(true, budget, slP, cfg, w);
    CappedIsLess(budget, slP, cfg);
  }

  lemma HighStopKeepsStockRisk(ask: real, slP: real, tpP: real, budget: real, cfg: Config, w: World)
    requires 0.0 < slP < 1.0 && HighStop(ask, slP)
    ensures StockKeepsRisk(ask, slP, tpP, budget, cfg, w)
  {
    var outcome := StockBuy(true, budget, slP, tpP, cfg, w);
    if outcome.Submitted? && outcome.reference == ask && RiskCap(slP, cfg).Some? {
      SubmittedUnderCap(budget, slP, tpP, cfg, w);
      OrderKeepsRisk(outcome.order, ask, slP, tpP, Authorized(true, budget, slP, cfg, w).amount,
                     cfg.riskPerTradeUsd.value, Existing(w.holding));
    }
  }

  /** One share's worth of budget, nothing held, an open market and a venue that takes the order. */
  function RiskOf(ask: real, slP: real): real {
    ask * (1.0 - slP)
  }

  function OneShareConfig(ask: real, slP: real): Config {
    Config(true, Some(RiskOf(ask, slP)), None, 1.0, 1.0, 1, slP, 1.0)
  }

  function OneShareWorld(ask: real, id: OrderId): World {
    World(false, 0.0, false, true, 0, None, Quote(ask, ask), ask, Taken(id), Refused)
  }

  lemma CapOfRisk(ask: real, slP: real)
    requires ask > 0.0 && 0.0 < slP < 1.0
    ensures RiskOf(ask, slP) > 0.0 && CapFor(RiskOf(ask, slP), slP) == ask
  {
    var cap := CapFor(RiskOf(ask, slP), slP);
    assert cap * (1.0 - slP) == RiskOf(ask, slP);
    assert (cap - ask) * (1.0 - slP) == 0.0;
  }

  lemma OneShareCap(ask: real, slP: real)
    requires ask > 0.0 && 0.0 < slP < 1.0
    ensures RiskCap(slP, OneShareConfig(ask, slP)) == Some(ask)
  {
    CapOfRisk(ask, slP);
  }

  lemma OneShareSubmitted(ask: real, slP: real, tpP: real, id: OrderId)
    requires ask > 0.0 && 0.0 < slP < 1.0 && BracketBuy(ask, ask, slP, tpP).Ready?
    ensures StockBuy(true, ask, slP, tpP, OneShareConfig(ask, slP), OneShareWorld(ask, id))
         == Submitted(id, BracketBuy(ask, ask, slP, tpP).order, ask)
  {
    OneShareCap(ask, slP);
  }

  lemma LowStopLosesStockRisk(ask: real, slP: real, tpP: real, id: OrderId)
    requires ask > 0.0 && 0.0 < slP < 1.0 && 0.0 < StopLoss(ask, slP) < ask * slP
    ensures !StockKeepsRisk(ask, slP, tpP, ask, OneShareConfig(ask, slP), OneShareWorld(ask, id))
  {
    LowStopLosesMore(ask, slP, tpP);
    OneShareCap(ask, slP);
    OneShareSubmitted(ask, slP, tpP, id);
  }

  /** Whatever the requested budget, the configured risk, the held position and the venue's answers, a
      stock order at this price keeps the configured risk, exactly when the stop price is not below
      the stop fraction: neither rounded down nor moved by the clamp. */
  lemma RiskKeptIff(ask: real, slP: real, id: OrderId)
    requires ask > 0.0 && 0.0 < slP < 1.0 && StopLoss(ask, slP) > 0.0
    ensures (forall tpP, budget, cfg, w :: StockKeepsRisk(ask, slP, tpP, budget, cfg, w))
      <==> RoundToTick(ask * slP) >= ask * slP && RoundToTick(ask - 0.02) >= ask * slP
  {
    if StopLoss(ask, slP) >= ask * slP {
      forall tpP, budget, cfg, w ensures StockKeepsRisk(ask, slP, tpP, budget, cfg, w) {
        HighStopKeepsStockRisk(ask, slP, tpP, budget, cfg, w);
      }
    } else {
      LowStopLosesStockRisk(ask, slP, 1.0, id);
    }
  }

  /** On a fifty-cent stock the clamp doubles the loss: $200 at risk for a configured $100. */
  lemma ClampDoublesRisk()
    ensures BracketBuy(0.5, 100.0 / (1.0 - 0.98), 0.98, 1.05) == Ready(BracketOrder(10000, 0.48, 0.525))
    ensures 10000.0 * (0.5 - 0.48) == 200.0
  {
    assert 100.0 / (1.0 - 0.98) == 5000.0;
    assert HalfEven(0.5 * 0.98 * 10000.0) == 4900;
    assert HalfEven((0.5 - 0.02) * 10000.0) == 4800;
    assert HalfEven(0.5 * 1.05 * 10000.0) == 5250;
    assert HalfEven((0.5 + 0.02) * 10000.0) == 5200;
  }

  // ----- the crypto BUY

  const MIN_CRYPTO_NOTIONAL := 10.0

  function Cents(x: real): real {
    HalfEven(x * 100.0) as real / 100.0
  }

  /** A notional market order; a refused submit raises. */
  function Notional(budget: real, usdQuoted: bool, w: World): Outcome {
    if !usdQuoted then Skipped(NonUsdPair)
    else if Cents(budget) < MIN_CRYPTO_NOTIONAL then Skipped(BelowMinimum)
    else if w.first.Taken? then SubmittedNotional(w.first.id, Cents(budget))
    else Raised
  }

  /** Sized under the crypto stop fraction. */
  function CryptoBuy(reconciled: bool, budget: real, usdQuoted: bool, cfg: Config, w: World): Outcome {
    match Authorized(reconciled, budget, cfg.cryptoSlP, cfg, w)
    case NoBudget(skip) => Skipped(skip)
    case Budget(remaining) => Notional(remaining, usdQuoted, w)
  }

  /** A crypto order is a legal amount of money at or above the venue's minimum, and half a cent of
      rounding is all it may add to the remaining budget. */
  lemma CryptoWithinBudget(reconciled: bool, budget: real, usdQuoted: bool, cfg: Config, w: World)
    requires CryptoBuy(reconciled, budget, usdQuoted, cfg, w).SubmittedNotional?
    ensures var notional := CryptoBuy(reconciled, budget, usdQuoted, cfg, w).notional;
      && Preflight(reconciled, w, cfg).None? && usdQuoted
      && notional >= MIN_CRYPTO_NOTIONAL && notional * 100.0 == (notional * 100.0).Floor as real
      && -0.005 <= Existing(w.holding) + notional - Capped(budget, cfg.cryptoSlP, cfg) <= 0.005
  {
    AuthorizedBudget(reconciled, budget, cfg.cryptoSlP, cfg, w);
    var remaining := Capped(budget, cfg.cryptoSlP, cfg) - Existing(w.holding);
    assert Cents(remaining) * 100.0 == HalfEven(remaining * 100.0) as real;
  }

  datatype Exchange = Stocks | CryptoVenue(usdQuoted: bool)

  function BuyOutcome(reconciled: bool, exchange: Exchange, budget: real, slP: real, tpP: real, cfg: Config, w: World): Outcome {
    if exchange.Stocks? then StockBuy(reconciled, budget, slP, tpP, cfg, w) else CryptoBuy(reconciled, budget, exchange.usdQuoted, cfg, w)
  }

  /** No order of either kind leaves while a gate of the preflight is shut; in particular none before
      the first successful reconcile. */
  lemma GatesHold(reconciled: bool, exchange: Exchange, budget: real, slP: real, tpP: real, cfg: Config, w: World)
    requires !reconciled || w.killSwitch || w.dailyPnl >= cfg.dailyProfitTarget || w.dailyPnl <= -cfg.dailyLossLimit
          || w.openOrders || (!w.held && w.positionCount >= cfg.maxPositions)
    ensures BuyOutcome(reconciled, exchange, budget, slP, tpP, cfg, w).Skipped?
  {
    assert Preflight(reconciled, w, cfg).Some?;
  }
}
