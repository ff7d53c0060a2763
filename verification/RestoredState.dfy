/** What a restart tracks of stocks and crypto after its first success: the awaited fills and brackets of the
    open orders, the stops of the crypto positions, and an opening record for each position. */
module RestoredState {
  import opened Wrappers
  import opened OptionBroker
  import opened OptionProtocol
  import opened Reconcile
  import opened FailedAttempts
  import BracketOrders

  // ----- the orders

  /** An open stock or crypto order without legs that nothing has filled yet. */
  ghost predicate Awaits(o: OpenOrder) {
    o.class_ != OptionContract && o.legs == [] && !o.anyFill && o.live
  }

  /** An open stock or crypto order with a leg still live. */
  ghost predicate HasLiveLeg(o: OpenOrder) {
    o.class_ != OptionContract && exists k :: 0 <= k < |o.legs| && o.legs[k]
  }

  /** Each awaited fill is that of a listed order, by its own id, symbol and side; and none is missing. */
  ghost predicate FillsListed(fills: map<OrderId, PendingFill>, orders: seq<OpenOrder>) {
    && (forall id :: id in fills ==> exists o :: o in orders && o.id == id && Awaits(o) && AwaitedAs(fills[id], o))
    && (forall o :: o in orders && Awaits(o) ==> o.id in fills)
  }

  ghost predicate AwaitedAs(fill: PendingFill, o: OpenOrder) {
    fill.symbol == o.symbol && fill.side == o.side && fill.reason == "reconstructed_after_restart" && fill.legs.None? && fill.levels.None?
  }

  /** Order `k` is the last of its symbol with a live leg. */
  ghost predicate LatestBracket(orders: seq<OpenOrder>, s: Symbol, k: nat) {
    && k < |orders| && orders[k].symbol == s && HasLiveLeg(orders[k])
    && forall j :: k < j < |orders| && orders[j].symbol == s ==> !HasLiveLeg(orders[j])
  }

  /** Each symbol's bracket is the id of its last listed order with a live leg; and none is missing. */
  ghost predicate BracketsListed(brackets: map<Symbol, OrderId>, orders: seq<OpenOrder>) {
    && (forall s :: s in brackets ==> exists k: nat :: LatestBracket(orders, s, k) && orders[k].id == brackets[s])
    && (forall o :: o in orders && HasLiveLeg(o) ==> o.symbol in brackets)
  }

  lemma {:induction false} FillsCover(orders: seq<OpenOrder>, k: nat)
    requires k < |orders| && FillOf(orders[k]).Some?
    ensures orders[k].id in Fills(map[], orders)
  {
    if k < |orders| - 1 {
      FillsCover(orders[..|orders| - 1], k);
    }
  }

  lemma {:induction false} BracketsCover(orders: seq<OpenOrder>, k: nat)
    requires k < |orders| && BracketOf(orders[k]).Some?
    ensures orders[k].symbol in Brackets(map[], orders)
  {
    if k < |orders| - 1 {
      BracketsCover(orders[..|orders| - 1], k);
    }
  }

  lemma RestoresFills(orders: seq<OpenOrder>)
    ensures FillsListed(Fills(map[], orders), orders)
  {
    var fills := Fills(map[], orders);
    forall id | id in fills ensures exists o :: o in orders && o.id == id && Awaits(o) && AwaitedAs(fills[id], o) {
      var k := FillsWrittenBy(orders, id);
      assert orders[k] in orders && Awaits(orders[k]) && AwaitedAs(fills[id], orders[k]);
    }
    forall o | o in orders && Awaits(o) ensures o.id in fills {
      var k: nat :| k < |orders| && orders[k] == o;
      FillsCover(orders, k);
    }
  }

  lemma RestoresBrackets(orders: seq<OpenOrder>)
    ensures BracketsListed(Brackets(map[], orders), orders)
  {
    var brackets := Brackets(map[], orders);
    forall s | s in brackets ensures exists k: nat :: LatestBracket(orders, s, k) && orders[k].id == brackets[s] {
      var k := BracketsWrittenBy(orders, s);
      assert LatestBracket(orders, s, k);
    }
    forall o | o in orders && HasLiveLeg(o) ensures o.symbol in brackets {
      var k: nat :| k < |orders| && orders[k] == o;
      BracketsCover(orders, k);
    }
  }

  // ----- the stops

  /** A crypto position with a usable price: the average entry price, or without one the current price. */
  ghost predicate Priced(p: VenuePosition, price: real) {
    p.class_ == Crypto && price > 0.0 && (p.avgEntry == Some(price) || (p.avgEntry.None? && p.current == Some(price)))
  }

  ghost predicate BuyAwaited(fills: map<OrderId, PendingFill>, s: Symbol) {
    exists id :: id in fills && fills[id].symbol == s && fills[id].side == Buy
  }

  /** The stop and the target at the two fractions of the price; around it when the fractions are. */
  ghost predicate Around(stop: (real, real), price: real, cfg: Config) {
    && stop.0 == price * cfg.slP && stop.1 == price * cfg.tpP
    && (cfg.slP < 1.0 < cfg.tpP ==> stop.0 < price < stop.1)
  }

  /** Position `k` is the first of its symbol with a usable price. */
  ghost predicate FirstPriced(ps: seq<VenuePosition>, s: Symbol, k: nat, price: real) {
    && k < |ps| && ps[k].symbol == s && Priced(ps[k], price)
    && forall j, other :: 0 <= j < k && ps[j].symbol == s ==> !Priced(ps[j], other)
  }

  ghost predicate StopsListed(stops: map<Symbol, (real, real)>, fills: map<OrderId, PendingFill>, ps: seq<VenuePosition>, cfg: Config) {
    && (forall s :: s in stops ==> !BuyAwaited(fills, s) && exists k: nat, price :: FirstPriced(ps, s, k, price) && Around(stops[s], price, cfg))
    && (forall p, price :: p in ps && Priced(p, price) && !BuyAwaited(fills, p.symbol) ==> p.symbol in stops)
  }

  lemma StopIsAround(fills: map<OrderId, PendingFill>, p: VenuePosition, cfg: Config, price: real)
    ensures StopOf(fills, p, cfg).Some? ==> !BuyAwaited(fills, p.symbol)
    ensures Priced(p, price) && !BuyAwaited(fills, p.symbol) ==> StopOf(fills, p, cfg).Some? && Around(StopOf(fills, p, cfg).value, price, cfg)
    ensures StopOf(fills, p, cfg).Some? ==> ReferencePrice(p).Some? && Priced(p, ReferencePrice(p).value)
  {
    if cfg.slP < 1.0 < cfg.tpP && price > 0.0 {
      BracketOrders.TimesKeepsStrict(cfg.slP, 1.0, price);
      BracketOrders.TimesKeepsStrict(1.0, cfg.tpP, price);
    }
  }

  lemma {:induction false} StopsWrittenBy(fills: map<OrderId, PendingFill>, ps: seq<VenuePosition>, cfg: Config, s: Symbol) returns (k: nat)
    requires s in Stops(map[], fills, ps, cfg)
    ensures k < |ps| && ps[k].symbol == s && StopOf(fills, ps[k], cfg) == Some(Stops(map[], fills, ps, cfg)[s])
    ensures forall j :: 0 <= j < k && ps[j].symbol == s ==> StopOf(fills, ps[j], cfg).None?
    decreases |ps|
  {
    var n := |ps| - 1;
    if s in Stops(map[], fills, ps[..n], cfg) {
      k := StopsWrittenBy(fills, ps[..n], cfg, s);
    } else {
      k := n;
      forall j | 0 <= j < n && ps[j].symbol == s ensures StopOf(fills, ps[j], cfg).None? {
        if StopOf(fills, ps[j], cfg).Some? { StopsCover(map[], fills, ps[..n], cfg, j); }
      }
    }
  }

  lemma RestoresStops(fills: map<OrderId, PendingFill>, ps: seq<VenuePosition>, cfg: Config)
    ensures StopsListed(Stops(map[], fills, ps, cfg), fills, ps, cfg)
  {
    var stops := Stops(map[], fills, ps, cfg);
    forall s | s in stops
      ensures !BuyAwaited(fills, s) && exists k: nat, price :: FirstPriced(ps, s, k, price) && Around(stops[s], price, cfg)
    {
      var k := StopsWrittenBy(fills, ps, cfg, s);
      StopIsAround(fills, ps[k], cfg, 1.0);
      var price := ReferencePrice(ps[k]).value;
      StopIsAround(fills, ps[k], cfg, price);
      forall j, other | 0 <= j < k && ps[j].symbol == s ensures !Priced(ps[j], other) {
        StopIsAround(fills, ps[j], cfg, other);
      }
      assert FirstPriced(ps, s, k, price) && Around(stops[s], price, cfg);
    }
    forall p, price | p in ps && Priced(p, price) && !BuyAwaited(fills, p.symbol) ensures p.symbol in stops {
      var k: nat :| k < |ps| && ps[k] == p;
      StopIsAround(fills, p, cfg, price);
      StopsCover(map[], fills, ps, cfg, k);
    }
  }

  /** The positions the crypto step got through. */
  function Reached(a: Answers): seq<VenuePosition>
    requires a.positions.Some?
  {
    if a.cryptoRaises.Some? && a.cryptoRaises.value < |a.positions.value| then a.positions.value[..a.cryptoRaises.value] else a.positions.value
  }

  /** From an empty state, a success tracks of stocks and crypto what the venue lists and nothing else. */
  lemma RestartTracksTheRest(t: Tracked, a: Answers, cfg: Config)
    requires Complete(a) && t.fills == map[] && t.brackets == map[] && t.stops == map[] && t.opens == {}
    ensures var t' := Attempt(t, a, cfg);
      && FillsListed(t'.fills, a.orders.value) && BracketsListed(t'.brackets, a.orders.value)
      && StopsListed(t'.stops, t'.fills, Reached(a), cfg)
      && (forall s :: s in t'.opens <==> exists p :: p in a.positions.value && p.class_ != OptionContract && p.symbol == s)
  {
    var t' := Attempt(t, a, cfg);
    RestoresFills(a.orders.value);
    RestoresBrackets(a.orders.value);
    RestoresStops(Fills(map[], a.orders.value), Reached(a), cfg);
    assert t'.opens == {} + set p | p in a.positions.value && p.class_ != OptionContract :: p.symbol;
  }
}
