/** Exactly when a stock or crypto BUY goes out, in terms of what the call reads, and the budget it is
    held to. */
module BuyConditions {
  import opened Wrappers
  import opened BracketOrders

  /** Reconciled, not halted, within the daily limits, nothing open, and room for another position. */
  predicate GatesOpen(reconciled: bool, w: World, cfg: Config) {
    && reconciled && !w.killSwitch && -cfg.dailyLossLimit < w.dailyPnl < cfg.dailyProfitTarget
    && !w.openOrders && (w.held || w.positionCount < cfg.maxPositions)
  }

  predicate ValueKnown(w: World) {
    w.holding.Some? ==> w.holding.value.marketValue.Some?
  }

  /** The requested budget, or if less the amount that loses the configured risk at the stop fraction. */
  ghost predicate HeldTo(budget: real, slP: real, cfg: Config, limit: real) {
    if cfg.riskBased && cfg.riskPerTradeUsd.Some? && cfg.riskPerTradeUsd.value != 0.0 && 0.0 < slP < 1.0 then
      && limit <= budget && limit * (1.0 - slP) <= cfg.riskPerTradeUsd.value
      && (limit == budget || limit * (1.0 - slP) == cfg.riskPerTradeUsd.value)
    else limit == budget
  }

  lemma CappedIsHeldTo(budget: real, slP: real, cfg: Config)
    ensures HeldTo(budget, slP, cfg, Capped(budget, slP, cfg))
  {
    var cap := RiskCap(slP, cfg);
    if cap.Some? {
      assert cap.value * (1.0 - slP) == cfg.riskPerTradeUsd.value;
      if budget <= cap.value {
        TimesKeeps(budget, cap.value, 1.0 - slP);
      }
    }
  }

  /** What is left of the limit beside the held position. */
  function Left(budget: real, slP: real, cfg: Config, w: World): real {
    Capped(budget, slP, cfg) - if w.holding.Some? && w.holding.value.marketValue.Some? then w.holding.value.marketValue.value else 0.0
  }

  /** With a spread limit the quote must be whole and its spread within the limit; without one the ask is
      taken as it comes. */
  predicate QuotePasses(w: World, cfg: Config) {
    cfg.maxSpreadPct.None? || (0.0 < w.spreadQuote.bid < w.spreadQuote.ask
                               && w.spreadQuote.ask - w.spreadQuote.bid <= cfg.maxSpreadPct.value * w.spreadQuote.ask)
  }

  function AskOf(w: World, cfg: Config): real {
    if cfg.maxSpreadPct.None? then w.ask else w.spreadQuote.ask
  }

  /** The budget pays for a share, and the stop price is positive. */
  predicate Builds(price: real, left: real, slP: real) {
    left >= price > 0.02005 && price * slP > 0.00005
  }

  lemma SpreadIff(w: World, cfg: Config)
    ensures ReferencePrice(w, cfg) == Price(AskOf(w, cfg)) <==> QuotePasses(w, cfg)
    ensures ReferencePrice(w, cfg).Price? <==> QuotePasses(w, cfg)
  {
    if cfg.maxSpreadPct.Some? && w.spreadQuote.ask > 0.0 {
      var ask, spread := w.spreadQuote.ask, w.spreadQuote.ask - w.spreadQuote.bid;
      assert spread / ask * ask == spread;
      if spread / ask <= cfg.maxSpreadPct.value {
        TimesKeeps(spread / ask, cfg.maxSpreadPct.value, ask);
      } else {
        TimesKeepsStrict(cfg.maxSpreadPct.value, spread / ask, ask);
      }
    }
  }

  lemma AuthorizedIff(reconciled: bool, budget: real, slP: real, cfg: Config, w: World)
    ensures Authorized(reconciled, budget, slP, cfg, w).Budget?
      <==> GatesOpen(reconciled, w, cfg) && ValueKnown(w) && (w.holding.Some? ==> Left(budget, slP, cfg, w) > 0.0)
    ensures Authorized(reconciled, budget, slP, cfg, w).Budget?
      ==> Authorized(reconciled, budget, slP, cfg, w).amount == Left(budget, slP, cfg, w)
  {
  }

  /** The venue takes the order, at once or rebuilt at its own reference price. */
  predicate VenueTakes(left: real, slP: real, w: World) {
    w.first.Taken? || (w.first.PriceRejected? && Builds(w.first.basePrice, left, slP) && w.second.Taken?)
  }

  lemma BuildsIff(price: real, left: real, slP: real, tpP: real)
    ensures BracketBuy(price, left, slP, tpP).Ready? <==> Builds(price, left, slP)
  {
    BuiltIff(price, left, slP, tpP);
  }

  lemma RetryIff(price: real, left: real, slP: real, tpP: real, answer: SubmitAnswer)
    ensures Retry(price, left, slP, tpP, answer).Submitted? <==> Builds(price, left, slP) && answer.Taken?
    ensures var outcome := Retry(price, left, slP, tpP, answer);
      outcome.Submitted? ==> answer.Taken? && outcome.id == answer.id && outcome.reference == price
  {
    BuildsIff(price, left, slP, tpP);
    match BracketBuy(price, left, slP, tpP)
    case Failed(_) =>
    case Ready(_) =>
  }

  lemma SubmitIff(order: BracketOrder, ask: real, left: real, slP: real, tpP: real, w: World)
    ensures SubmitBuy(order, ask, left, slP, tpP, w).Submitted? <==> VenueTakes(left, slP, w)
    ensures var outcome := SubmitBuy(order, ask, left, slP, tpP, w);
      outcome.Submitted? ==> if w.first.Taken? then outcome.id == w.first.id && outcome.reference == ask
                             else w.second.Taken? && outcome.id == w.second.id && w.first.PriceRejected? && outcome.reference == w.first.basePrice
  {
    if w.first.PriceRejected? {
      RetryIff(w.first.basePrice, left, slP, tpP, w.second);
    }
  }

  lemma BracketedIff(left: real, slP: real, tpP: real, ask: real, w: World)
    ensures Bracketed(left, slP, tpP, Price(ask), w).Submitted? <==> Builds(ask, left, slP) && VenueTakes(left, slP, w)
    ensures var outcome := Bracketed(left, slP, tpP, Price(ask), w);
      outcome.Submitted? ==> if w.first.Taken? then outcome.id == w.first.id && outcome.reference == ask
                             else w.second.Taken? && outcome.id == w.second.id && w.first.PriceRejected? && outcome.reference == w.first.basePrice
  {
    BuildsIff(ask, left, slP, tpP);
    match BracketBuy(ask, left, slP, tpP)
    case Failed(_) =>
    case Ready(order) => SubmitIff(order, ask, left, slP, tpP, w);
  }

  /** Exactly when a stock order goes out, and under which id and reference price. */
  lemma StockSubmittedIff(reconciled: bool, budget: real, slP: real, tpP: real, cfg: Config, w: World)
    ensures StockBuy(reconciled, budget, slP, tpP, cfg, w).Submitted?
      <==> GatesOpen(reconciled, w, cfg) && ValueKnown(w) && QuotePasses(w, cfg)
           && Builds(AskOf(w, cfg), Left(budget, slP, cfg, w), slP) && VenueTakes(Left(budget, slP, cfg, w), slP, w)
    ensures var outcome := StockBuy(reconciled, budget, slP, tpP, cfg, w);
      outcome.Submitted? ==> if w.first.Taken? then outcome.id == w.first.id && outcome.reference == AskOf(w, cfg)
                             else w.second.Taken? && outcome.id == w.second.id && w.first.PriceRejected? && outcome.reference == w.first.basePrice
  {
    AuthorizedIff(reconciled, budget, slP, cfg, w);
    SpreadIff(w, cfg);
    BracketedIff(Left(budget, slP, cfg, w), slP, tpP, AskOf(w, cfg), w);
  }

  /** Ten dollars once rounded to cents. */
  lemma TenDollarsIff(left: real)
    ensures Cents(left) >= MIN_CRYPTO_NOTIONAL <==> left >= 9.995
  {
    var k := HalfEven(left * 100.0);
    if left >= 9.995 {
      assert k as real >= left * 100.0 - 0.5 >= 999.0;
      assert k == 999 ==> k as real - left * 100.0 == -0.5;
    } else {
      assert k as real <= left * 100.0 + 0.5 < 1000.0;
    }
  }

  /** Exactly when a crypto order goes out, under which id and for how much: what is left of the limit,
      to the cent. */
  lemma CryptoSubmittedIff(reconciled: bool, budget: real, usdQuoted: bool, cfg: Config, w: World)
    ensures CryptoBuy(reconciled, budget, usdQuoted, cfg, w).SubmittedNotional?
      <==> GatesOpen(reconciled, w, cfg) && ValueKnown(w) && usdQuoted && Left(budget, cfg.cryptoSlP, cfg, w) >= 9.995 && w.first.Taken?
    ensures var outcome := CryptoBuy(reconciled, budget, usdQuoted, cfg, w);
      outcome.SubmittedNotional? ==> w.first.Taken? && outcome.id == w.first.id
                                     && -0.005 <= outcome.notional - Left(budget, cfg.cryptoSlP, cfg, w) <= 0.005
  {
    AuthorizedIff(reconciled, budget, cfg.cryptoSlP, cfg, w);
    TenDollarsIff(Left(budget, cfg.cryptoSlP, cfg, w));
  }

  // ----- the reasons for a skip

  /** The price is real, but the budget is not, or a share fits and its legs do not. */
  predicate Misfits(price: real, left: real, slP: real) {
    price > 0.0 && (left <= 0.0 || (left >= price && (price <= 0.02005 || price * slP <= 0.00005)))
  }

  /** `price` is one the call built an order at: the ask, or the venue's own after a rejection. */
  predicate Tried(price: real, cfg: Config, w: World) {
    price == AskOf(w, cfg) || (w.first.PriceRejected? && price == w.first.basePrice)
  }

  /** The reason given for not buying is so. */
  ghost predicate Because(skip: Skip, reconciled: bool, left: real, slP: real, cfg: Config, w: World) {
    match skip
    case StateNotReconciled => !reconciled
    case KillSwitch => w.killSwitch
    case ProfitTargetReached => w.dailyPnl >= cfg.dailyProfitTarget
    case LossLimitReached => w.dailyPnl + cfg.dailyLossLimit <= 0.0
    case OpenOrdersExist => w.openOrders
    case PositionCap => !w.held && w.positionCount >= cfg.maxPositions
    case MarketValueUnavailable => !ValueKnown(w)
    case BudgetExhausted => w.holding.Some? && left <= 0.0
    case NoAsk => exists price :: Tried(price, cfg, w) && price <= 0.0
    case InvalidQuote => cfg.maxSpreadPct.Some? && !(0.0 < w.spreadQuote.bid < w.spreadQuote.ask)
    case WideSpread => cfg.maxSpreadPct.Some? && !QuotePasses(w, cfg) && 0.0 < w.spreadQuote.bid < w.spreadQuote.ask
    case InsufficientQty => exists price :: Tried(price, cfg, w) && 0.0 < left < price
    case InvalidOrder => exists price :: Tried(price, cfg, w) && Misfits(price, left, slP)
    case NonUsdPair => false
    case BelowMinimum => false
  }

  lemma GateBecause(reconciled: bool, budget: real, slP: real, cfg: Config, w: World)
    ensures var sized := Authorized(reconciled, budget, slP, cfg, w);
      sized.NoBudget? ==> Because(sized.skip, reconciled, Left(budget, slP, cfg, w), slP, cfg, w)
  {
  }

  lemma FailsIff(price: real, left: real, slP: real, tpP: real)
    ensures BracketBuy(price, left, slP, tpP) == Failed(NoAskQuote) <==> price <= 0.0
    ensures BracketBuy(price, left, slP, tpP) == Failed(InsufficientQuantity) <==> 0.0 < left < price
    ensures BracketBuy(price, left, slP, tpP) == Failed(InvalidOrderParameters) <==> Misfits(price, left, slP)
  {
    BuiltIff(price, left, slP, tpP);
  }

  lemma ErrorBecause(error: OrderError, price: real, reconciled: bool, left: real, slP: real, cfg: Config, w: World)
    requires Tried(price, cfg, w)
    requires error.NoAskQuote? ==> price <= 0.0
    requires error.InsufficientQuantity? ==> 0.0 < left < price
    requires error.InvalidOrderParameters? ==> Misfits(price, left, slP)
    ensures Because(SkipOf(error), reconciled, left, slP, cfg, w)
  {
  }

  lemma BuildBecause(price: real, reconciled: bool, left: real, slP: real, tpP: real, cfg: Config, w: World)
    requires Tried(price, cfg, w)
    ensures var request := BracketBuy(price, left, slP, tpP);
      request.Failed? ==> Because(SkipOf(request.error), reconciled, left, slP, cfg, w)
  {
    FailsIff(price, left, slP, tpP);
    match BracketBuy(price, left, slP, tpP)
    case Ready(_) =>
    case Failed(error) => ErrorBecause(error, price, reconciled, left, slP, cfg, w);
  }

  lemma QuoteBecause(reconciled: bool, left: real, slP: real, cfg: Config, w: World)
    ensures ReferencePrice(w, cfg).NoPrice? ==> Because(ReferencePrice(w, cfg).skip, reconciled, left, slP, cfg, w)
  {
    SpreadIff(w, cfg);
    assert Tried(AskOf(w, cfg), cfg, w);
  }

  /** A stock BUY that is skipped is skipped for a reason that is so. */
  lemma SkipIsTrue(reconciled: bool, budget: real, slP: real, tpP: real, cfg: Config, w: World)
    ensures var outcome := StockBuy(reconciled, budget, slP, tpP, cfg, w);
      outcome.Skipped? ==> Because(outcome.skip, reconciled, Left(budget, slP, cfg, w), slP, cfg, w)
  {
    var left := Left(budget, slP, cfg, w);
    GateBecause(reconciled, budget, slP, cfg, w);
    AuthorizedIff(reconciled, budget, slP, cfg, w);
    QuoteBecause(reconciled, left, slP, cfg, w);
    SpreadIff(w, cfg);
    BuildBecause(AskOf(w, cfg), reconciled, left, slP, tpP, cfg, w);
    if w.first.PriceRejected? {
      BuildBecause(w.first.basePrice, reconciled, left, slP, tpP, cfg, w);
    }
  }

  /** So is a crypto BUY, or the pair is not quoted in dollars, or too little is left. */
  lemma CryptoSkipIsTrue(reconciled: bool, budget: real, usdQuoted: bool, cfg: Config, w: World)
    ensures var outcome := CryptoBuy(reconciled, budget, usdQuoted, cfg, w);
      var left := Left(budget, cfg.cryptoSlP, cfg, w);
      outcome.Skipped? ==> if outcome.skip.NonUsdPair? then !usdQuoted else if outcome.skip.BelowMinimum? then left < 9.995
                           else Because(outcome.skip, reconciled, left, cfg.cryptoSlP, cfg, w)
  {
    GateBecause(reconciled, budget, cfg.cryptoSlP, cfg, w);
    AuthorizedIff(reconciled, budget, cfg.cryptoSlP, cfg, w);
    TenDollarsIff(Left(budget, cfg.cryptoSlP, cfg, w));
  }
}
