/** Reconcile attempts and stock or crypto BUY calls on the one state they share: from a process that has
    just started, no order leaves before an attempt has succeeded. */
module FirstOrders {
  import opened Wrappers
  import opened OptionBroker
  import opened OptionProtocol
  import opened Reconcile
  import BracketOrders

  datatype Call =
    | Tries(answers: Answers)
    | Buys(symbol: Symbol, exchange: BracketOrders.Exchange, budget: real, slP: real, tpP: real,
           cfg: BracketOrders.Config, world: BracketOrders.World)

  function OutcomeOf(t: Tracked, call: Call): BracketOrders.Outcome
    requires call.Buys?
  {
    BracketOrders.BuyOutcome(t.reconciled, call.exchange, call.budget, call.slP, call.tpP, call.cfg, call.world)
  }

  function Serve(t: Tracked, call: Call, cfg: Config): Tracked {
    match call
    case Tries(answers) => Attempt(t, answers, cfg)
    case Buys(symbol, _, _, _, _, buyCfg, _) => Bought(t, symbol, OutcomeOf(t, call), buyCfg)
  }

  function ServeAll(t: Tracked, calls: seq<Call>, cfg: Config): Tracked {
    if calls == [] then t else Serve(ServeAll(t, calls[..|calls| - 1], cfg), calls[|calls| - 1], cfg)
  }

  /** Some attempt among the first `n` calls succeeded. */
  ghost predicate Succeeded(calls: seq<Call>, n: nat) {
    exists j :: 0 <= j < n <= |calls| && calls[j].Tries? && Complete(calls[j].answers)
  }

  lemma ServeFlag(t: Tracked, call: Call, cfg: Config)
    ensures Serve(t, call, cfg).reconciled <==> t.reconciled || (call.Tries? && Complete(call.answers))
  {
    if call.Tries? {
      FlagOnlyOnSuccess(t, call.answers, cfg);
    }
  }

  /** The flag is set exactly by a success. */
  lemma {:induction false} FlagIffSucceeded(t: Tracked, calls: seq<Call>, cfg: Config)
    requires !t.reconciled
    ensures ServeAll(t, calls, cfg).reconciled <==> Succeeded(calls, |calls|)
  {
    if calls != [] {
      var n := |calls| - 1;
      FlagIffSucceeded(t, calls[..n], cfg);
      ServeFlag(ServeAll(t, calls[..n], cfg), calls[n], cfg);
      if j :| 0 <= j < n && calls[..n][j].Tries? && Complete(calls[..n][j].answers) {
        assert calls[j].Tries? && Complete(calls[j].answers);
      }
      if j :| 0 <= j < |calls| && calls[j].Tries? && Complete(calls[j].answers) {
        assert j < n ==> calls[..n][j].Tries? && Complete(calls[..n][j].answers);
      }
    }
  }

  ghost predicate Sends(outcome: BracketOrders.Outcome) {
    outcome.Submitted? || outcome.SubmittedNotional?
  }

  /** The main result: in any sequence of attempts and BUY calls from a process that has just started, a
      call that sends an order comes after a successful attempt; before one, every BUY call is turned
      away and leaves the tracked state as it was. */
  lemma NoOrderBeforeSuccess(t: Tracked, calls: seq<Call>, k: nat, cfg: Config)
    requires !t.reconciled && k < |calls| && calls[k].Buys?
    ensures var before := ServeAll(t, calls[..k], cfg);
      && (Sends(OutcomeOf(before, calls[k])) ==> Succeeded(calls, k))
      && (!Succeeded(calls, k) ==>
            OutcomeOf(before, calls[k]) == BracketOrders.Skipped(BracketOrders.StateNotReconciled) && Serve(before, calls[k], cfg) == before)
  {
    var before := ServeAll(t, calls[..k], cfg);
    FlagIffSucceeded(t, calls[..k], cfg);
    if j :| 0 <= j < k && calls[..k][j].Tries? && Complete(calls[..k][j].answers) {
      assert calls[j].Tries? && Complete(calls[j].answers);
    } else {
      TurnedAway(before, calls[k]);
    }
  }

  lemma TurnedAway(t: Tracked, call: Call)
    requires !t.reconciled && call.Buys?
    ensures OutcomeOf(t, call) == BracketOrders.Skipped(BracketOrders.StateNotReconciled)
  {
    assert BracketOrders.Preflight(false, call.world, call.cfg) == Some(BracketOrders.StateNotReconciled);
  }
}
