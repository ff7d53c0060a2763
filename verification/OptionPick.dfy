/** Choosing an option contract and its quantity: only observed chain rows may carry numbers, whatever
    the model answers; the deterministic fallback takes the row nearest the target delta. */
module OptionPick {
  import opened Wrappers
  import opened OccCodec
  import BracketOrders

  // ----- chain rows

  /** One contract's snapshot; fields that are missing or not numbers are None. */
  datatype Snapshot = Snapshot(strikePrice: Option<real>, expirationDate: Option<string>, delta: Option<real>,
                               bid: Option<real>, ask: Option<real>, oi: Option<real>, volume: Option<real>)

  datatype Row = Row(symbol: string, strike: Option<real>, expiration: Option<string>, right: Option<Right>, delta: Option<real>,
                     bid: Option<real>, ask: Option<real>, oi: Option<real>, volume: Option<real>)

  function RowOf(sym: string, snap: Snapshot): Row {
    var occ := ParseOccSymbol(sym);
    Row(sym,
        if occ.Some? then Some(occ.value.strike) else snap.strikePrice,
        if occ.Some? then Some(occ.value.expiration) else snap.expirationDate,
        if occ.Some? then Some(occ.value.right) else None,
        snap.delta, snap.bid, snap.ask, snap.oi, snap.volume)
  }

  /** A row that has a direction has it from its symbol, and with it the strike and the expiration. */
  ghost predicate Observed(r: Row) {
    r.right.Some? ==>
      var occ := ParseOccSymbol(r.symbol);
      && occ.Some? && r.right == Some(occ.value.right)
      && r.strike == Some(occ.value.strike) && r.expiration == Some(occ.value.expiration) && r.expiration.value != ""
  }

  ghost predicate AllObserved(rows: seq<Row>) {
    forall k :: 0 <= k < |rows| ==> Observed(rows[k])
  }

  /** `at` names the item each row was made from. */
  ghost predicate InOrder(snapshots: seq<(string, Option<Snapshot>)>, n: nat, rows: seq<Row>, at: seq<nat>) {
    && |at| == |rows| && n <= |snapshots|
    && (forall k :: 0 <= k < |at| ==> at[k] < n && Yields(snapshots[at[k]], rows[k]))
    && (forall k, l :: 0 <= k < l < |at| ==> at[k] < at[l])
    && (forall j: nat :: j < n && snapshots[j].1.Some? ==> j in at)
  }

  /** The snapshots' items in order; one that is not an object is None. The rows are those of the
      objects, one each, in the same order. */
  method ParseOptionChain(snapshots: seq<(string, Option<Snapshot>)>) returns (rows: seq<Row>, ghost at: seq<nat>)
    ensures AllObserved(rows)
    ensures InOrder(snapshots, |snapshots|, rows, at)
  {
    rows, at := [], [];
    var i: nat := 0;
    while i < |snapshots|
      invariant i <= |snapshots|
      invariant AllObserved(rows)
      invariant InOrder(snapshots, i, rows, at)
    {
      var (sym, snap) := snapshots[i];
      if snap.Some? {
        rows, at := rows + [RowOf(sym, snap.value)], at + [i];
      }
      i := i + 1;
    }
  }

  ghost predicate Yields(item: (string, Option<Snapshot>), r: Row) {
    item.1.Some? && FieldsOf(item.0, item.1.value, r)
  }

  /** Numbers as the snapshot has them; strike and expiration from the symbol if it parses, and from the
      snapshot otherwise; the direction only from the symbol. */
  ghost predicate FieldsOf(sym: string, snap: Snapshot, r: Row) {
    && r.symbol == sym && r.delta == snap.delta && r.bid == snap.bid && r.ask == snap.ask && r.oi == snap.oi && r.volume == snap.volume
    && match ParseOccSymbol(sym)
       case None => r.strike == snap.strikePrice && r.expiration == snap.expirationDate && r.right.None?
       case Some(occ) => r.strike == Some(occ.strike) && r.expiration == Some(occ.expiration) && r.right == Some(occ.right)
  }

  // ----- picks

  datatype Pick = Pick(contract: string, strike: real, expiration: string, right: Right, delta: real, premium: real, reasoning: string)

  /** `days` reads a %Y-%m-%d date as a day number; None is a ValueError. */
  datatype Config = Config(days: string -> Option<int>, deltaMin: real, deltaMax: real, dteMin: int, dteMax: int,
                           minOi: Option<real>, minVolume: Option<real>, optionRisk: Option<real>, strategyRisk: Option<real>)

  function Abs(x: real): (r: real)
    ensures r >= 0.0 && (r == x || r == -x)
  {
    if x < 0.0 then -x else x
  }

  function Mid(bid: real, ask: real): real {
    BracketOrders.HalfEven((bid + ask) / 2.0 * 100.0) as real / 100.0
  }

  /** `not bid or not ask or ask <= 0` rejects; so does a midpoint that rounds to nothing. */
  predicate Quoted(r: Row) {
    && r.bid.Some? && r.bid.value != 0.0 && r.ask.Some? && r.ask.value > 0.0
    && Mid(r.bid.value, r.ask.value) > 0.0
  }

  predicate InDte(expiration: string, cfg: Config, today: int) {
    cfg.days(expiration).Some? && cfg.dteMin <= cfg.days(expiration).value - today <= cfg.dteMax
  }

  predicate Enough(minimum: Option<real>, have: Option<real>) {
    minimum.None? || have.None? || have.value >= minimum.value
  }

  /** The rows the fallback may choose from. */
  predicate Eligible(r: Row, right: Right, cfg: Config, today: int) {
    && r.right == Some(right) && r.delta.Some? && r.expiration.Some? && r.expiration.value != ""
    && cfg.deltaMin <= Abs(r.delta.value) <= cfg.deltaMax
    && InDte(r.expiration.value, cfg, today)
    && Enough(cfg.minOi, r.oi) && Enough(cfg.minVolume, r.volume)
    && Quoted(r)
  }

  /** A midpoint that rounds to a positive price is above half a cent. */
  lemma MidPositive(bid: real, ask: real)
    ensures Mid(bid, ask) > 0.0 <==> bid + ask > 0.01
    ensures -0.005 <= Mid(bid, ask) - (bid + ask) / 2.0 <= 0.005
  {
    var y := (bid + ask) / 2.0 * 100.0;
    var k := BracketOrders.HalfEven(y);
    if y > 0.5 {
      assert k >= 1;
    } else {
      assert k as real - y <= 0.5;
      assert k == 1 ==> k as real - y == 0.5;
      assert k <= 0;
    }
  }

  /** The size of the delta, whatever its sign, lies in the window. */
  predicate InDeltaWindow(delta: real, cfg: Config) {
    || (delta >= 0.0 && cfg.deltaMin <= delta <= cfg.deltaMax)
    || (delta <= 0.0 && -cfg.deltaMax <= delta <= -cfg.deltaMin)
  }

  /** A row on offer: it points the way, its delta and date lie in the windows, neither open interest nor
      volume is known to be too small, and there is a two-sided quote worth more than half a cent. */
  ghost predicate OnOffer(r: Row, right: Right, cfg: Config, today: int) {
    && r.right == Some(right)
    && r.delta.Some? && InDeltaWindow(r.delta.value, cfg)
    && (r.expiration.Some? && r.expiration.value != ""
        && exists day :: cfg.days(r.expiration.value) == Some(day) && today + cfg.dteMin <= day <= today + cfg.dteMax)
    && !(cfg.minOi.Some? && r.oi.Some? && r.oi.value < cfg.minOi.value)
    && !(cfg.minVolume.Some? && r.volume.Some? && r.volume.value < cfg.minVolume.value)
    && (r.bid.Some? && r.ask.Some? && r.bid.value != 0.0 && r.ask.value > 0.0 && r.bid.value + r.ask.value > 0.01)
  }

  lemma EligibleIff(r: Row, right: Right, cfg: Config, today: int)
    ensures Eligible(r, right, cfg, today) <==> OnOffer(r, right, cfg, today)
  {
    if r.bid.Some? && r.ask.Some? {
      MidPositive(r.bid.value, r.ask.value);
    }
    if r.expiration.Some? && InDte(r.expiration.value, cfg, today) {
      var day := cfg.days(r.expiration.value).value;
      assert today + cfg.dteMin <= day <= today + cfg.dteMax;
    }
  }

  function Key(r: Row, deltaMid: real): (real, real)
    requires r.delta.Some? && Quoted(r)
  {
    (Abs(Abs(r.delta.value) - deltaMid), r.ask.value - r.bid.value)
  }

  predicate LexLess(a: (real, real), b: (real, real)) {
    a.0 < b.0 || (a.0 == b.0 && a.1 < b.1)
  }

  const FALLBACK := "deterministic fallback: structured LLM pick unavailable"

  function PickOf(r: Row, right: Right, reasoning: string): Pick
    requires r.strike.Some? && r.expiration.Some? && r.delta.Some? && Quoted(r)
  {
    Pick(r.symbol, r.strike.value, r.expiration.value, right, Abs(r.delta.value), Mid(r.bid.value, r.ask.value), reasoning)
  }

  /** Row `k` is the first of the eligible rows with the least key among the first `n`. */
  ghost predicate FirstBest(rows: seq<Row>, k: nat, n: nat, right: Right, cfg: Config, today: int, deltaMid: real) {
    && k < n <= |rows| && Eligible(rows[k], right, cfg, today)
    && forall j :: 0 <= j < n && Eligible(rows[j], right, cfg, today) ==>
         && !LexLess(Key(rows[j], deltaMid), Key(rows[k], deltaMid))
         && (j < k ==> LexLess(Key(rows[k], deltaMid), Key(rows[j], deltaMid)))
  }

  ghost predicate BestPick(pick: Pick, rows: seq<Row>, k: nat, right: Right, cfg: Config, today: int, deltaMid: real) {
    && FirstBest(rows, k, |rows|, right, cfg, today, deltaMid)
    && rows[k].strike.Some? && pick == PickOf(rows[k], right, FALLBACK)
  }

  /** The scan's step: a later row takes over only with a strictly smaller key. */
  lemma NextBest(rows: seq<Row>, best: Option<nat>, i: nat, right: Right, cfg: Config, today: int, deltaMid: real)
    requires i < |rows| && Eligible(rows[i], right, cfg, today)
    requires best.None? ==> forall k :: 0 <= k < i ==> !Eligible(rows[k], right, cfg, today)
    requires best.Some? ==> FirstBest(rows, best.value, i, right, cfg, today, deltaMid)
    ensures best.None? || LexLess(Key(rows[i], deltaMid), Key(rows[best.value], deltaMid)) ==>
        FirstBest(rows, i, i + 1, right, cfg, today, deltaMid)
    ensures best.Some? && !LexLess(Key(rows[i], deltaMid), Key(rows[best.value], deltaMid)) ==>
        FirstBest(rows, best.value, i + 1, right, cfg, today, deltaMid)
  {
  }

  /** How far the row's delta is from the target, whatever its sign, and how far apart its quote. */
  ghost predicate Nearer(r: Row, s: Row, deltaMid: real)
    requires r.delta.Some? && s.delta.Some? && r.bid.Some? && r.ask.Some? && s.bid.Some? && s.ask.Some?
  {
    var dr := Abs(Abs(r.delta.value) - deltaMid);
    var ds := Abs(Abs(s.delta.value) - deltaMid);
    dr < ds || (dr == ds && r.ask.value - r.bid.value <= s.ask.value - s.bid.value)
  }

  /** The pick is the row on offer nearest the target, then the tightest quoted, then the first; and its
      numbers are that row's. */
  ghost predicate NearestOffer(pick: Pick, rows: seq<Row>, k: nat, right: Right, cfg: Config, today: int, deltaMid: real) {
    && k < |rows| && OnOffer(rows[k], right, cfg, today) && From(pick, rows[k], right)
    && forall j :: 0 <= j < |rows| && OnOffer(rows[j], right, cfg, today)
         ==> Nearer(rows[k], rows[j], deltaMid) && (Nearer(rows[j], rows[k], deltaMid) ==> k <= j)
  }

  lemma BestIsNearest(pick: Pick, rows: seq<Row>, k: nat, right: Right, cfg: Config, today: int, deltaMid: real)
    requires BestPick(pick, rows, k, right, cfg, today, deltaMid)
    ensures NearestOffer(pick, rows, k, right, cfg, today, deltaMid)
  {
    EligibleIff(rows[k], right, cfg, today);
    MidPositive(rows[k].bid.value, rows[k].ask.value);
    forall j | 0 <= j < |rows| && OnOffer(rows[j], right, cfg, today)
      ensures Nearer(rows[k], rows[j], deltaMid) && (Nearer(rows[j], rows[k], deltaMid) ==> k <= j)
    {
      EligibleIff(rows[j], right, cfg, today);
    }
  }

  method FallbackPick(rows: seq<Row>, right: Right, cfg: Config, deltaMid: real, today: int) returns (pick: Option<Pick>)
    requires AllObserved(rows)
    ensures pick.None? <==> forall k :: 0 <= k < |rows| ==> !OnOffer(rows[k], right, cfg, today)
    ensures pick.Some? ==> exists k: nat :: BestPick(pick.value, rows, k, right, cfg, today, deltaMid)
                                         && NearestOffer(pick.value, rows, k, right, cfg, today, deltaMid)
  {
    forall k | 0 <= k < |rows| ensures Eligible(rows[k], right, cfg, today) <==> OnOffer(rows[k], right, cfg, today) {
      EligibleIff(rows[k], right, cfg, today);
    }
    var best: Option<nat> := None;
    var i := 0;
    while i < |rows|
      invariant 0 <= i <= |rows|
      invariant best.None? ==> forall k :: 0 <= k < i ==> !Eligible(rows[k], right, cfg, today)
      invariant best.Some? ==> FirstBest(rows, best.value, i, right, cfg, today, deltaMid)
    {
      if Eligible(rows[i], right, cfg, today) {
        NextBest(rows, best, i, right, cfg, today, deltaMid);
        if best.None? || LexLess(Key(rows[i], deltaMid), Key(rows[best.value], deltaMid)) {
          best := Some(i);
        }
      }
      i := i + 1;
    }
    if best.None? {
      return None;
    }
    assert Observed(rows[best.value]);
    pick := Some(PickOf(rows[best.value], right, FALLBACK));
    BestIsNearest(pick.value, rows, best.value, right, cfg, today, deltaMid);
  }

  // ----- the model's answer

  predicate Rejected(pick: Pick, right: Right, rows: seq<Row>) {
    pick.right != right || !exists k :: 0 <= k < |rows| && rows[k].symbol == pick.contract
  }

  function FirstWith(rows: seq<Row>, symbol: string): Option<Row> {
    if rows == [] then None else if rows[0].symbol == symbol then Some(rows[0]) else FirstWith(rows[1..], symbol)
  }

  lemma {:induction false} FirstWithFinds(rows: seq<Row>, symbol: string)
    ensures FirstWith(rows, symbol).Some? ==> FirstWith(rows, symbol).value in rows && FirstWith(rows, symbol).value.symbol == symbol
  {
    if rows != [] && rows[0].symbol != symbol {
      FirstWithFinds(rows[1..], symbol);
    }
  }

  function ReconcilePick(pick: Pick, right: Right, rows: seq<Row>): Option<Pick> {
    var row := FirstWith(rows, pick.contract);
    if row.None? || row.value.right != Some(right) then None
    else
      var r := row.value;
      if r.delta.None? || r.strike.None? || r.expiration.None? || r.expiration.value == "" || !Quoted(r) then None
      else Some(PickOf(r, right, pick.reasoning))
  }

  /** Every number of the pick comes from an observed row that points the intended way. */
  ghost predicate Grounded(pick: Pick, right: Right, rows: seq<Row>) {
    pick.right == right && pick.premium > 0.0 && exists r :: r in rows && From(pick, r, right)
  }

  ghost predicate From(pick: Pick, r: Row, right: Right) {
    && r.symbol == pick.contract && r.right == Some(right) == Some(pick.right)
    && r.strike == Some(pick.strike) && r.expiration == Some(pick.expiration)
    && r.delta.Some? && pick.delta >= 0.0 && (pick.delta == r.delta.value || pick.delta == -r.delta.value)
    && r.bid.Some? && r.ask.Some? && pick.premium > 0.0 && -0.005 <= pick.premium - (r.bid.value + r.ask.value) / 2.0 <= 0.005
  }

  lemma ReconciledIsGrounded(pick: Pick, right: Right, rows: seq<Row>)
    requires ReconcilePick(pick, right, rows).Some?
    ensures Grounded(ReconcilePick(pick, right, rows).value, right, rows)
    ensures ReconcilePick(pick, right, rows).value.contract == pick.contract
  {
    FirstWithFinds(rows, pick.contract);
    var r := FirstWith(rows, pick.contract).value;
    MidPositive(r.bid.value, r.ask.value);
    assert From(ReconcilePick(pick, right, rows).value, FirstWith(rows, pick.contract).value, right);
  }

  /** Row `k` is the first with the symbol. */
  ghost predicate FirstAt(rows: seq<Row>, symbol: string, k: nat) {
    k < |rows| && rows[k].symbol == symbol && forall j :: 0 <= j < k ==> rows[j].symbol != symbol
  }

  /** The model's pick can be used: it points the intended way, and so does row `k`, the first observed
      under its symbol, which has a strike, a delta, a date and a quote worth more than half a cent. */
  ghost predicate Usable(pick: Pick, rows: seq<Row>, k: nat, right: Right) {
    && FirstAt(rows, pick.contract, k)
    && pick.right == right && rows[k].right == Some(right)
    && rows[k].strike.Some? && rows[k].delta.Some? && rows[k].expiration.Some? && rows[k].expiration.value != ""
    && rows[k].bid.Some? && rows[k].ask.Some? && rows[k].bid.value != 0.0 && rows[k].ask.value > 0.0
    && rows[k].bid.value + rows[k].ask.value > 0.01
  }

  /** The model's choice of contract and its reasoning, with the observed row's numbers. */
  ghost predicate Regrounds(pick: Pick, answer: Pick, rows: seq<Row>, right: Right) {
    && pick.contract == answer.contract && pick.reasoning == answer.reasoning
    && exists k: nat :: Usable(answer, rows, k, right) && From(pick, rows[k], right)
  }

  lemma {:induction false} FirstWithIs(rows: seq<Row>, symbol: string, k: nat)
    requires FirstAt(rows, symbol, k)
    ensures FirstWith(rows, symbol) == Some(rows[k])
  {
    if k > 0 {
      assert forall j :: 0 <= j < k - 1 ==> rows[1..][j] == rows[j + 1];
      FirstWithIs(rows[1..], symbol, k - 1);
    }
  }

  lemma {:induction false} FirstWithAt(rows: seq<Row>, symbol: string)
    requires exists j :: 0 <= j < |rows| && rows[j].symbol == symbol
    ensures exists k: nat :: FirstAt(rows, symbol, k)
  {
    var j :| 0 <= j < |rows| && rows[j].symbol == symbol;
    if rows[0].symbol == symbol {
      assert FirstAt(rows, symbol, 0);
    } else {
      assert rows[1..][j - 1].symbol == symbol;
      FirstWithAt(rows[1..], symbol);
      var k: nat :| FirstAt(rows[1..], symbol, k);
      assert forall i :: 0 < i < k + 1 ==> rows[i] == rows[1..][i - 1];
      assert FirstAt(rows, symbol, k + 1);
    }
  }

  /** The model's answer is taken exactly when it is usable. */
  lemma TrustedIff(answer: Pick, rows: seq<Row>, right: Right)
    ensures !Rejected(answer, right, rows) && ReconcilePick(answer, right, rows).Some? <==> exists k: nat :: Usable(answer, rows, k, right)
    ensures !Rejected(answer, right, rows) && ReconcilePick(answer, right, rows).Some?
      ==> Regrounds(ReconcilePick(answer, right, rows).value, answer, rows, right)
  {
    if exists j :: 0 <= j < |rows| && rows[j].symbol == answer.contract {
      FirstWithAt(rows, answer.contract);
      var k: nat :| FirstAt(rows, answer.contract, k);
      FirstWithIs(rows, answer.contract, k);
      if rows[k].bid.Some? && rows[k].ask.Some? {
        MidPositive(rows[k].bid.value, rows[k].ask.value);
      }
      if answer.right == right && ReconcilePick(answer, right, rows).Some? {
        assert Usable(answer, rows, k, right);
      }
      assert forall i: nat :: Usable(answer, rows, i, right) ==> i == k;
    }
  }

  /** The end of the selection: `answer` is the model's structured pick, None when the call failed or
      returned nothing. Whatever it is, the result is grounded; and without a usable answer it is the
      fallback's, so none exactly when no row is eligible. */
  method SelectContract(answer: Option<Pick>, rows: seq<Row>, right: Right, cfg: Config, deltaMid: real, today: int)
    returns (pick: Option<Pick>)
    requires AllObserved(rows)
    ensures pick.Some? ==> Grounded(pick.value, right, rows)
    ensures pick.None? ==> forall k :: 0 <= k < |rows| ==> !OnOffer(rows[k], right, cfg, today)
    ensures var trusted := answer.Some? && !Rejected(answer.value, right, rows) && ReconcilePick(answer.value, right, rows).Some?;
      if trusted then pick == ReconcilePick(answer.value, right, rows)
      else pick.Some? ==> exists k: nat :: BestPick(pick.value, rows, k, right, cfg, today, deltaMid)
    ensures if answer.Some? && (exists k: nat :: Usable(answer.value, rows, k, right))
      then pick.Some? && Regrounds(pick.value, answer.value, rows, right)
      else pick.Some? ==> exists k: nat :: NearestOffer(pick.value, rows, k, right, cfg, today, deltaMid)
  {
    if answer.Some? {
      TrustedIff(answer.value, rows, right);
    }
    if answer.Some? && !Rejected(answer.value, right, rows) {
      var reconciled := ReconcilePick(answer.value, right, rows);
      if reconciled.Some? {
        ReconciledIsGrounded(answer.value, right, rows);
        return reconciled;
      }
    }
    pick := FallbackPick(rows, right, cfg, deltaMid, today);
    if pick.Some? {
      ghost var k: nat :| BestPick(pick.value, rows, k, right, cfg, today, deltaMid) && NearestOffer(pick.value, rows, k, right, cfg, today, deltaMid);
      assert rows[k] in rows && From(pick.value, rows[k], right);
    }
  }

  // ----- call_floor_broker_option: gates and size

  datatype Decision =
    | Ordered(qty: int)
    | NoBudget | DteOutOfRange | DeltaOutOfRange | RiskNotConfigured | QtyZero
    | BadDate                                   // strptime raises

  /** `options.risk or strategy.risk`: an unset or zero knob falls back to the shared one. */
  function RiskBudget(cfg: Config): Option<real> {
    if cfg.optionRisk.Some? && cfg.optionRisk.value != 0.0 then cfg.optionRisk
    else if cfg.strategyRisk.Some? && cfg.strategyRisk.value != 0.0 then cfg.strategyRisk
    else None
  }

  function Contracts(risk: real, premium: real): int {
    if premium > 0.0 then (risk / (premium * 100.0)).Floor else 0
  }

  function Decide(pick: Pick, budget: real, cfg: Config, today: int): Decision {
    if budget <= 0.0 then NoBudget
    else if cfg.days(pick.expiration).None? then BadDate
    else if !InDte(pick.expiration, cfg, today) then DteOutOfRange
    else if !(cfg.deltaMin <= Abs(pick.delta) <= cfg.deltaMax) then DeltaOutOfRange
    else if RiskBudget(cfg).None? then RiskNotConfigured
    else if Contracts(RiskBudget(cfg).value, pick.premium) < 1 then QtyZero
    else Ordered(Contracts(RiskBudget(cfg).value, pick.premium))
  }

  /** `qty` contracts at this premium fit the risk budget, and one more would not. */
  ghost predicate FillsRisk(qty: int, premium: real, risk: real) {
    qty >= 1 && qty as real * (premium * 100.0) <= risk < (qty + 1) as real * (premium * 100.0)
  }

  lemma ContractsFillRisk(risk: real, premium: real)
    requires Contracts(risk, premium) >= 1
    ensures FillsRisk(Contracts(risk, premium), premium, risk)
  {
    var each := premium * 100.0;
    BracketOrders.QtyIsLargest(each, risk, Contracts(risk, premium));
    BracketOrders.QtyIsLargest(each, risk, Contracts(risk, premium) + 1);
  }

  lemma AffordsOne(risk: real, premium: real)
    requires premium > 0.0
    ensures Contracts(risk, premium) >= 1 <==> premium * 100.0 <= risk
  {
    BracketOrders.QtyIsLargest(premium * 100.0, risk, 1);
  }

  /** Any sized order stays within the risk budget, and uses as much of it as whole contracts can. */
  lemma OrderWithinRisk(pick: Pick, budget: real, cfg: Config, today: int)
    requires Decide(pick, budget, cfg, today).Ordered?
    ensures RiskBudget(cfg).Some? && FillsRisk(Decide(pick, budget, cfg, today).qty, pick.premium, RiskBudget(cfg).value)
  {
    ContractsFillRisk(RiskBudget(cfg).value, pick.premium);
  }

  /** The options' own risk if it is set and not zero, the strategy's otherwise. */
  lemma RiskIs(cfg: Config, risk: real)
    ensures RiskBudget(cfg) == Some(risk)
      <==> risk != 0.0 && (cfg.optionRisk == Some(risk)
                           || ((cfg.optionRisk.None? || cfg.optionRisk == Some(0.0)) && cfg.strategyRisk == Some(risk)))
  {
  }

  /** The reason given for not ordering is so of the pick. */
  ghost predicate TurnedAwayBy(decision: Decision, pick: Pick, budget: real, cfg: Config, today: int) {
    match decision
    case Ordered(_) => true
    case NoBudget => budget <= 0.0
    case BadDate => cfg.days(pick.expiration).None?
    case DteOutOfRange => exists day :: cfg.days(pick.expiration) == Some(day) && !(today + cfg.dteMin <= day <= today + cfg.dteMax)
    case DeltaOutOfRange => !InDeltaWindow(pick.delta, cfg)
    case RiskNotConfigured => forall risk :: RiskBudget(cfg) != Some(risk)
    case QtyZero => pick.premium > 0.0 ==> exists risk :: RiskBudget(cfg) == Some(risk) && risk < pick.premium * 100.0
  }

  lemma DecisionIsTrue(pick: Pick, budget: real, cfg: Config, today: int)
    ensures TurnedAwayBy(Decide(pick, budget, cfg, today), pick, budget, cfg, today)
  {
    if cfg.days(pick.expiration).Some? {
      var day := cfg.days(pick.expiration).value;
      assert cfg.days(pick.expiration) == Some(day);
    }
    if RiskBudget(cfg).Some? && pick.premium > 0.0 {
      AffordsOne(RiskBudget(cfg).value, pick.premium);
    }
  }

  /** Exactly when a pick is ordered: there is a budget, its date and delta lie in the windows, and one
      contract, a hundred times the premium, fits the configured risk. */
  lemma OrderedIff(pick: Pick, budget: real, cfg: Config, today: int)
    ensures Decide(pick, budget, cfg, today).Ordered?
      <==> budget > 0.0 && (exists day :: cfg.days(pick.expiration) == Some(day) && today + cfg.dteMin <= day <= today + cfg.dteMax)
           && InDeltaWindow(pick.delta, cfg) && pick.premium > 0.0 && exists risk :: RiskBudget(cfg) == Some(risk) && pick.premium * 100.0 <= risk
  {
    if RiskBudget(cfg).Some? && pick.premium > 0.0 {
      AffordsOne(RiskBudget(cfg).value, pick.premium);
    }
  }

  /** The fallback's pick always passes the later date and delta gates of the same day: it is ordered
      exactly when there is a budget and one contract fits the configured risk. */
  lemma FallbackPassesGates(pick: Pick, rows: seq<Row>, k: nat, right: Right, cfg: Config, deltaMid: real, today: int, budget: real)
    requires BestPick(pick, rows, k, right, cfg, today, deltaMid)
    ensures Decide(pick, budget, cfg, today) !in {DteOutOfRange, DeltaOutOfRange, BadDate}
    ensures Decide(pick, budget, cfg, today).Ordered?
      <==> budget > 0.0 && RiskBudget(cfg).Some? && pick.premium * 100.0 <= RiskBudget(cfg).value
  {
    assert Abs(pick.delta) == pick.delta == Abs(rows[k].delta.value);
    if RiskBudget(cfg).Some? {
      AffordsOne(RiskBudget(cfg).value, pick.premium);
    }
  }

  // ----- _trim_history

  datatype Message = Message(tool: bool, content: string, id: string)

  const DROPPED := "[older tool result dropped to stay within the context budget]"

  function Chars(messages: seq<Message>): nat {
    if messages == [] then 0 else Chars(messages[..|messages| - 1]) + |messages[|messages| - 1].content|
  }

  function EstimateTokens(messages: seq<Message>): nat {
    Chars(messages) / 4
  }

  predicate Large(m: Message) {
    m.tool && |m.content| > 200
  }

  function Blank(m: Message): Message {
    m.(content := DROPPED)
  }

  /** The large tool results among the first `n` messages blanked, everything else as it was. */
  function BlankedUpTo(messages: seq<Message>, n: nat): (r: seq<Message>)
    requires n <= |messages|
    ensures |r| == |messages|
    ensures forall k :: 0 <= k < |r| ==> r[k] == if k < n && Large(messages[k]) then Blank(messages[k]) else messages[k]
  {
    seq(|messages|, k requires 0 <= k < |messages| => if k < n && Large(messages[k]) then Blank(messages[k]) else messages[k])
  }

  /** The most recent message is never touched. */
  function Trimmable(messages: seq<Message>): nat {
    if messages == [] then 0 else |messages| - 1
  }

  /** Message `k`, not the last, is a tool result of more than 200 characters, and only the notice is left. */
  ghost predicate LongResultDropped(messages: seq<Message>, k: nat, m: Message) {
    && k < |messages| - 1 && messages[k].tool && |messages[k].content| > 200
    && m == messages[k].(content := "[older tool result dropped to stay within the context budget]")
  }

  /** Four characters are a token, a part of one none. */
  lemma TokensAreQuarters(messages: seq<Message>)
    ensures 4 * EstimateTokens(messages) <= Chars(messages) < 4 * (EstimateTokens(messages) + 1)
  {
  }

  /** Oldest first, and no further than needed: trimming stops at the first point within the cap, or
      when nothing is left to blank. */
  method TrimHistory(messages: seq<Message>, hardCap: int) returns (trimmed: seq<Message>)
    ensures EstimateTokens(messages) <= hardCap ==> trimmed == messages
    ensures exists n: nat :: n <= Trimmable(messages) && TrimmedTo(messages, hardCap, n, trimmed)
    ensures |trimmed| == |messages| && forall k :: 0 <= k < |trimmed| ==> trimmed[k] == messages[k] || LongResultDropped(messages, k, trimmed[k])
  {
    assert BlankedUpTo(messages, 0) == messages;
    if EstimateTokens(messages) <= hardCap {
      trimmed := messages;
      assert TrimmedTo(messages, hardCap, 0, trimmed);
      return;
    }
    trimmed := messages;
    var i: nat := 0;
    while i < Trimmable(messages)
      invariant i <= Trimmable(messages)
      invariant trimmed == BlankedUpTo(messages, i)
      invariant forall k: nat :: k <= i ==> EstimateTokens(BlankedUpTo(messages, k)) > hardCap
    {
      var m := messages[i];
      if Large(m) {
        trimmed := trimmed[i := Blank(m)];
        assert trimmed == BlankedUpTo(messages, i + 1);
        if EstimateTokens(trimmed) <= hardCap {
          assert TrimmedTo(messages, hardCap, i + 1, trimmed);
          return;
        }
      }
      assert trimmed == BlankedUpTo(messages, i + 1);
      i := i + 1;
    }
    assert TrimmedTo(messages, hardCap, i, trimmed);
  }

  ghost predicate TrimmedTo(messages: seq<Message>, hardCap: int, n: nat, trimmed: seq<Message>)
    requires n <= |messages|
  {
    && trimmed == BlankedUpTo(messages, n)
    && (forall k: nat :: k < n ==> EstimateTokens(BlankedUpTo(messages, k)) > hardCap)
    && (EstimateTokens(trimmed) <= hardCap || n == Trimmable(messages))
  }

  lemma {:induction false} BlankingShrinks(messages: seq<Message>, n: nat, m: nat)
    requires n <= m <= |messages|
    ensures Chars(BlankedUpTo(messages, m)) <= Chars(BlankedUpTo(messages, n))
  {
    if messages != [] {
      var l := |messages| - 1;
      var init := messages[..l];
      var m', n' := if m <= l then m else l, if n <= l then n else l;
      assert BlankedUpTo(messages, m)[..l] == BlankedUpTo(init, m');
      assert BlankedUpTo(messages, n)[..l] == BlankedUpTo(init, n');
      BlankingShrinks(init, n', m');
    }
  }

  /** The result fits the cap exactly when blanking every large older tool result would, and nothing
      that fits is blanked more than it must be. */
  lemma TrimFitsIff(messages: seq<Message>, hardCap: int, n: nat, trimmed: seq<Message>)
    requires n <= Trimmable(messages) && TrimmedTo(messages, hardCap, n, trimmed)
    ensures EstimateTokens(trimmed) <= hardCap <==> EstimateTokens(BlankedUpTo(messages, Trimmable(messages))) <= hardCap
    ensures |trimmed| == |messages| && forall k :: 0 <= k < |trimmed| ==> trimmed[k].id == messages[k].id && trimmed[k].tool == messages[k].tool
    ensures messages != [] ==> trimmed[|messages| - 1] == messages[|messages| - 1]
    ensures EstimateTokens(trimmed) <= EstimateTokens(messages)
  {
    BlankingShrinks(messages, n, Trimmable(messages));
    BlankingShrinks(messages, 0, n);
    assert BlankedUpTo(messages, 0) == messages;
  }
}
