/** What the fill poll reports is so: each event it ever returned agrees with the venue, then and for
    the rest of the process life. */
module TrueReports {
  import opened Wrappers
  import opened OptionBroker
  import opened OptionProtocol
  import opened NeverShort
  import opened ExactlyOnce
  import opened ThreadFrames

  /** A reported BUY fill has happened in at least that size; a reported SELL fill is the order's whole
      and final one, at its price; an order reported as ended without a fill is over and has none. */
  ghost predicate EventTrue(b: Broker, e: Event) {
    && e.id in b.orders
    && var o := b.orders[e.id];
       match e
       case FillEvent(_, price, qty) => 0 < qty <= o.filled && (o.side == Sell ==> !o.Open() && qty == o.filled && price == o.avgPrice)
       case TerminalEvent(_, status) => !o.Open() && o.filled == 0 && o.status == status
  }

  ghost predicate EventsTrue(b: Broker, events: seq<Event>) {
    forall e :: e in events ==> EventTrue(b, e)
  }

  ghost predicate PointTrue(b: Broker, at: PollPoint) {
    match at
    case Ready => true
    case Seen(_, _, _) => true
    case Opening(id, _, price, qty) => EventTrue(b, FillEvent(id, price, qty))
    case Storing(_, event) => event.Some? ==> EventTrue(b, event.value)
  }

  ghost predicate TrueInv(s: State) {
    EventsTrue(s.b, s.p.events) && (s.p.poll.Polling? ==> PointTrue(s.b, s.p.poll.at))
  }

  // ----- the venue only moves forward

  ghost predicate Forward(b: Broker, b': Broker) {
    forall i :: i in b.orders ==> Earlier(b', i, b.orders[i])
  }

  lemma EventStaysTrue(b: Broker, b': Broker, e: Event)
    requires Forward(b, b') && EventTrue(b, e)
    ensures EventTrue(b', e)
  {
    assert Earlier(b', e.id, b.orders[e.id]);
  }

  lemma AdvanceForward(b: Broker, id: OrderId, n: nat, avgPrice: real, status: OrderStatus)
    ensures Forward(b, b.Advance(id, n, avgPrice, status))
  {
  }

  lemma CancelForward(b: Broker, id: OrderId)
    requires b.CanCancel(id)
    ensures Forward(b, b.Cancel(id))
  {
  }

  lemma SubmitForward(b: Broker, id: OrderId, c: Contract, side: Side, qty: nat)
    requires id !in b.orders
    ensures Forward(b, b.Submit(id, c, side, qty))
  {
  }

  lemma SellForward(s: State, st: Step)
    requires IsSellStep(st)
    ensures Forward(s.b, Apply(s, st).b)
  {
    match st
    case SellCancel(c, id, ok) => if s.b.CanCancel(id) { CancelForward(s.b, id); }
    case SellSubmit(c, id, ok) =>
      if c in s.p.sells && s.p.sells[c].at.Sized? && id !in s.b.orders {
        SubmitForward(s.b, id, c, Sell, s.p.sells[c].at.qty);
      }
    case _ =>
  }

  lemma BuyForward(s: State, st: Step)
    requires IsBuyStep(st)
    ensures Forward(s.b, Apply(s, st).b)
  {
    if st.BuySubmit? && st.tid in s.p.buys && s.p.buys[st.tid].at.Cleared? && st.id !in s.b.orders {
      SubmitForward(s.b, st.id, s.p.buys[st.tid].contract, Buy, s.p.buys[st.tid].qty);
    }
  }

  /** A step that leaves the poll alone leaves its reports true. */
  lemma ForwardKeepsTrue(s: State, t: State)
    requires TrueInv(s) && Forward(s.b, t.b) && SamePoll(s.p, t.p)
    ensures TrueInv(t)
  {
    forall e | e in t.p.events ensures EventTrue(t.b, e) {
      EventStaysTrue(s.b, t.b, e);
    }
    if s.p.poll.Polling? {
      if s.p.poll.at.Opening? {
        EventStaysTrue(s.b, t.b, FillEvent(s.p.poll.at.id, s.p.poll.at.price, s.p.poll.at.qty));
      } else if s.p.poll.at.Storing? && s.p.poll.at.event.Some? {
        EventStaysTrue(s.b, t.b, s.p.poll.at.event.value);
      }
    }
  }

  // ----- the poll

  lemma CommitKeepsTrue(s: State)
    requires Inv(s) && TrueInv(s)
    ensures TrueInv(Apply(s, PollCommit))
  {
    if s.p.poll.Polling? && s.p.poll.at.Seen? {
      var Seen(id, ctx, o) := s.p.poll.at;
      assert Names(s.b, id, ctx) && Earlier(s.b, id, o);
      if ctx.SellCtx? {
        SettleSellMeets(s.p, id, ctx, o);
        SettledSellTrue(s.b, s.p, id, ctx, o);
      } else {
        SettleBuyMeets(s.p, id, ctx, o);
        SettledBuyTrue(s.b, s.p, id, ctx, o);
      }
    }
  }

  lemma SettledSellTrue(b: Broker, p: Proc, id: OrderId, ctx: Ctx, o: Order)
    requires p.poll.Polling? && ctx.SellCtx? && Names(b, id, ctx) && Earlier(b, id, o)
    ensures PointTrue(b, SettleSell(p, id, ctx, o).poll.at)
  {
  }

  lemma SettledBuyTrue(b: Broker, p: Proc, id: OrderId, ctx: Ctx, o: Order)
    requires p.poll.Polling? && ctx.BuyCtx? && Names(b, id, ctx) && Earlier(b, id, o)
    ensures PointTrue(b, SettleBuy(p, id, ctx, o).poll.at)
  {
  }

  lemma StoreKeepsTrue(s: State, ok: bool)
    requires TrueInv(s)
    ensures TrueInv(Apply(s, PollStore(ok)))
  {
    var t := PollStoreStep(s, ok);
    forall e | e in t.p.events ensures EventTrue(t.b, e) {
    }
  }

  lemma PollKeepsTrue(s: State, st: Step)
    requires Inv(s) && TrueInv(s) && IsPollStep(st)
    ensures TrueInv(Apply(s, st))
  {
    match st
    case PollCommit => CommitKeepsTrue(s);
    case PollStore(ok) => StoreKeepsTrue(s, ok);
    case _ =>
  }

  lemma StepKeepsTrue(s: State, st: Step)
    requires Inv(s) && TrueInv(s) && !st.Crash?
    ensures TrueInv(Apply(s, st))
  {
    if IsPollStep(st) {
      PollKeepsTrue(s, st);
    } else if IsSellStep(st) {
      SellTouches(s, st);
      SellForward(s, st);
      ForwardKeepsTrue(s, Apply(s, st));
    } else if IsBuyStep(st) {
      BuyTouches(s, st);
      BuyForward(s, st);
      ForwardKeepsTrue(s, Apply(s, st));
    } else if IsReconStep(st) {
      ReconTouches(s, st);
      ReconForward(s, st);
      ForwardKeepsTrue(s, Apply(s, st));
    } else {
      AdvanceForward(s.b, st.id, st.n, st.avgPrice, st.status);
      ForwardKeepsTrue(s, Apply(s, st));
    }
  }

  lemma ReconForward(s: State, st: Step)
    requires IsReconStep(st)
    ensures Forward(s.b, Apply(s, st).b)
  {
  }

  lemma {:induction false} RunKeepsTrue(s: State, steps: seq<Step>)
    requires Inv(s) && TrueInv(s) && OneLife(steps)
    ensures TrueInv(Run(s, steps))
    decreases |steps|
  {
    if steps != [] {
      StepKeeps(s, steps[0]);
      StepKeepsTrue(s, steps[0]);
      RunKeepsTrue(Apply(s, steps[0]), steps[1..]);
    }
  }

  /** The main result: at the end of any run of one process life, every event reported in it is true of
      the venue. */
  lemma ReportsAreTrue(b: Broker, rows: seq<Row>, steps: seq<Step>)
    requires b.NeverShort() && OneLife(steps)
    ensures var t := Run(State(b, FRESH, rows), steps); EventsTrue(t.b, t.p.events)
  {
    RunKeepsTrue(State(b, FRESH, rows), steps);
  }

  // ----- all of it together

  /** Never short and watched, reported at most once, and truly. */
  ghost predicate Sound(s: State) {
    Inv(s) && OnceInv(s) && TrueInv(s)
  }

  /** Any stretch of a process life keeps a sound state sound. */
  lemma LifeKeepsSound(s: State, steps: seq<Step>, t: State)
    requires Lives(s, steps, t)
    ensures Sound(s) ==> Sound(t)
  {
    if Sound(s) {
      RunKeepsOnce(s, steps);
      RunKeepsTrue(s, steps);
    }
  }

  /** The events one poll adds: distinct orders, none of them reported before, each true of the venue. */
  ghost predicate FreshReports(b: Broker, before: seq<Event>, added: seq<Event>) {
    DistinctEvents(added) && EventsTrue(b, added) && EventIds(before) !! EventIds(added)
  }

  lemma NewReports(s: State, before: seq<Event>, added: seq<Event>)
    requires s.p.events == before + added
    ensures Sound(s) ==> FreshReports(s.b, before, added)
  {
    if Sound(s) {
      var events := s.p.events;
      assert forall k :: 0 <= k < |added| ==> added[k] == events[|before| + k];
      forall k, l | 0 <= k < |before| && 0 <= l < |added| ensures before[k].id != added[l].id {
        assert before[k] == events[k] && added[l] == events[|before| + l];
      }
    }
  }

  lemma FreshIsSound(b: Broker, rows: seq<Row>)
    requires b.NeverShort()
    ensures Sound(State(b, FRESH, rows))
  {
  }
}
