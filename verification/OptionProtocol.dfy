/** The Floor Broker's option-order protocol as a step system. Every lock-held block and every call
    to the venue or to the database is one step; steps of different threads interleave freely.
    A step whose guard fails leaves the state alone, so a run is any list of steps. */
module OptionProtocol {
  import opened Wrappers
  import opened OptionBroker

  /** The BUY-side fields that travel with a contract but do not steer the protocol. */
  datatype Terms = Terms(symbol: string, right: string, strike: real, expiration: string, delta: Option<real>)

  /** An entry of _option_positions. */
  datatype Position = Position(terms: Terms, entryPremium: real, qty: nat)

  /** An entry of _pending_option_fills. */
  datatype Ctx =
    | BuyCtx(contract: Contract, terms: Terms, qty: nat, rowOpened: bool)
    | SellCtx(contract: Contract, symbol: Option<string>, reason: string)

  /** A row of options_trades; `exit` holds exit_reason and exit_premium once closed_at is set. */
  datatype Row = Row(contract: Contract, terms: Terms, entryPremium: real, qty: nat, exit: Option<(string, real)>) {
    predicate OpenFor(c: Contract) {
      contract == c && exit.None?
    }
  }

  datatype Event =
    | FillEvent(id: OrderId, price: real, qty: nat)
    | TerminalEvent(id: OrderId, status: OrderStatus)

  // ----- options_trades

  datatype DbOp =
    | OpenRow(id: OrderId, row: Row)
    | UpdateRow(contract: Contract, entryPremium: real, qty: nat)
    | CloseRow(contract: Contract, reason: string, price: real)

  function UpdateOpenRows(rows: seq<Row>, c: Contract, entryPremium: real, qty: nat): seq<Row> {
    seq(|rows|, k requires 0 <= k < |rows| =>
      if rows[k].OpenFor(c) then rows[k].(entryPremium := entryPremium, qty := qty) else rows[k])
  }

  function CloseOpenRows(rows: seq<Row>, c: Contract, reason: string, price: real): seq<Row> {
    seq(|rows|, k requires 0 <= k < |rows| =>
      if rows[k].OpenFor(c) then rows[k].(exit := Some((reason, price))) else rows[k])
  }

  function ApplyDb(rows: seq<Row>, op: DbOp): seq<Row> {
    match op
    case OpenRow(_, row) => rows + [row]
    case UpdateRow(c, premium, qty) => UpdateOpenRows(rows, c, premium, qty)
    case CloseRow(c, reason, price) => CloseOpenRows(rows, c, reason, price)
  }

  // ----- program points of the threads

  /** check_pending_option_fills: `todo` is the rest of the snapshot it iterates over. */
  datatype Poll = Idle | Polling(todo: seq<(OrderId, Ctx)>, at: PollPoint)

  datatype PollPoint =
    | Ready
    | Seen(id: OrderId, ctx: Ctx, order: Order)                       // network read done, lock not taken
    | Opening(id: OrderId, ctx: Ctx, price: real, qty: nat)           // lock released, before the re-check
    | Storing(op: Option<DbOp>, event: Option<Event>)                 // before the DB call and events.append

  datatype BuyPoint = Admitted | MemoryChecked | Cleared | Sent(id: OrderId)

  datatype BuyCall = BuyCall(contract: Contract, terms: Terms, qty: nat, at: BuyPoint)

  datatype SellPoint =
    | Cancelling(todo: set<OrderId>)
    | Sized(qty: nat)
    | SellSent(id: OrderId)

  datatype SellCall = SellCall(reason: string, canceled: set<OrderId>, at: SellPoint)

  datatype Recon =
    | NotRunning
    | ReadPositions(held: map<Contract, int>)
    | Restoring(held: map<Contract, int>, todo: set<Contract>, openRows: set<Contract>)
    | Registering(orders: map<OrderId, Order>, openRows: set<Contract>)

  /** One process life: the module dicts, the flag, the threads' program points and the history of
      returned events and attempted row inserts. */
  datatype Proc = Proc(
    positions: map<Contract, Position>,
    pending: map<OrderId, Ctx>,
    reconciled: bool,
    poll: Poll,
    buys: map<nat, BuyCall>,
    sells: map<Contract, SellCall>,
    recon: Recon,
    events: seq<Event>,
    inserts: seq<OrderId>)

  const FRESH := Proc(map[], map[], false, Idle, map[], map[], NotRunning, [], [])

  datatype State = State(b: Broker, p: Proc, rows: seq<Row>)

  datatype Step =
    | BrokerAdvance(id: OrderId, n: nat, avgPrice: real, status: OrderStatus)
    | Crash
    | PollBegin(ids: seq<OrderId>)
    | PollRead(ok: bool)
    | PollCommit
    | PollRecheck
    | PollStore(ok: bool)
    | BuyAdmit(tid: nat, contract: Contract, terms: Terms, qty: nat)
    | BuyCheckMemory(tid: nat)
    | BuyCheckBroker(tid: nat, ok: bool)
    | BuyGiveUp(tid: nat)
    | BuySubmit(tid: nat, id: OrderId)
    | BuyRegister(tid: nat)
    | SellBegin(contract: Contract, reason: string)
    | SellCancel(contract: Contract, id: OrderId, ok: bool)
    | SellSize(contract: Contract, ok: bool)
    | SellSubmit(contract: Contract, id: OrderId, ok: bool)
    | SellRegister(contract: Contract)
    | ReconBegin
    | ReconRows(ok: bool)
    | ReconRestore(contract: Contract, entry: Option<(Terms, real)>)
    | ReconOrders(ok: bool)
    | ReconRegister(id: OrderId, parsed: Option<Terms>)
    | ReconFinish

  // the steps of each thread

  predicate IsBuyStep(st: Step) {
    st.BuyAdmit? || st.BuyCheckMemory? || st.BuyCheckBroker? || st.BuyGiveUp? || st.BuySubmit? || st.BuyRegister?
  }

  predicate IsSellStep(st: Step) {
    st.SellBegin? || st.SellCancel? || st.SellSize? || st.SellSubmit? || st.SellRegister?
  }

  predicate IsPollStep(st: Step) {
    st.PollBegin? || st.PollRead? || st.PollCommit? || st.PollRecheck? || st.PollStore?
  }

  predicate IsReconStep(st: Step) {
    st.ReconBegin? || st.ReconRows? || st.ReconRestore? || st.ReconOrders? || st.ReconRegister? || st.ReconFinish?
  }

  // ----- questions the code asks of its maps

  predicate SellPending(pending: map<OrderId, Ctx>, c: Contract) {
    exists id :: id in pending && pending[id].SellCtx? && pending[id].contract == c
  }

  function BuysPending(pending: map<OrderId, Ctx>, c: Contract): set<OrderId> {
    set id | id in pending && pending[id].BuyCtx? && pending[id].contract == c
  }

  function WithoutContract(pending: map<OrderId, Ctx>, c: Contract): map<OrderId, Ctx> {
    map id | id in pending && pending[id].contract != c :: pending[id]
  }

  // ----- check_pending_option_fills

  function PollBeginStep(p: Proc, ids: seq<OrderId>): Proc {
    if p.poll.Idle? && (forall id <- ids :: id in p.pending)
       && (forall i, j :: 0 <= i < j < |ids| ==> ids[i] != ids[j])
    then p.(poll := Polling(seq(|ids|, k requires 0 <= k < |ids| && ids[k] in p.pending => (ids[k], p.pending[ids[k]])), Ready))
    else p
  }

  function PollReadStep(b: Broker, p: Proc, ok: bool): Proc {
    if !(p.poll.Polling? && p.poll.at.Ready?) then p
    else if p.poll.todo == [] then p.(poll := Idle)
    else
      var id, ctx, rest := p.poll.todo[0].0, p.poll.todo[0].1, p.poll.todo[1..];
      if !ok then p.(poll := Polling(rest, Ready))
      else if id !in b.orders then p.(pending := p.pending - {id}, poll := Polling(rest, Ready))
      else p.(poll := Polling(rest, Seen(id, ctx, b.orders[id])))
  }

  function SettleSell(p: Proc, id: OrderId, ctx: Ctx, o: Order): Proc
    requires p.poll.Polling? && ctx.SellCtx?
  {
    var q := p.(poll := Polling(p.poll.todo, Ready));
    if o.filled > 0 then
      if o.Open() || id !in p.pending then q
      else
        var c := ctx.contract;
        var event := FillEvent(id, o.avgPrice, o.filled);
        if c in p.positions && p.positions[c].qty > o.filled then
          var rest := p.positions[c].qty - o.filled;
          q.(positions := p.positions[c := p.positions[c].(qty := rest)], pending := p.pending - {id},
             poll := Polling(p.poll.todo, Storing(Some(UpdateRow(c, p.positions[c].entryPremium, rest)), Some(event))))
        else
          q.(positions := p.positions - {c}, pending := p.pending - {id},
             poll := Polling(p.poll.todo, Storing(Some(CloseRow(c, ctx.reason, o.avgPrice)), Some(event))))
    else if !o.Open() then
      q.(pending := p.pending - {id}, poll := Polling(p.poll.todo, Storing(None, Some(TerminalEvent(id, o.status)))))
    else q
  }

  function SettleBuy(p: Proc, id: OrderId, ctx: Ctx, o: Order): Proc
    requires p.poll.Polling? && ctx.BuyCtx?
  {
    var q := p.(poll := Polling(p.poll.todo, Ready));
    if o.filled > 0 then
      if id !in p.pending then q
      else
        q.(positions := p.positions[ctx.contract := Position(ctx.terms, o.avgPrice, o.filled)],
           pending := if o.Open() then p.pending[id := ctx.(rowOpened := true)] else p.pending - {id},
           poll := Polling(p.poll.todo,
             if ctx.rowOpened then Storing(Some(UpdateRow(ctx.contract, o.avgPrice, o.filled)), None)
             else Opening(id, ctx, o.avgPrice, o.filled)))
    else if !o.Open() then
      q.(pending := p.pending - {id}, poll := Polling(p.poll.todo, Storing(None, Some(TerminalEvent(id, o.status)))))
    else q
  }

  function PollCommitStep(p: Proc): Proc {
    if p.poll.Polling? && p.poll.at.Seen? then
      var Seen(id, ctx, o) := p.poll.at;
      if ctx.SellCtx? then SettleSell(p, id, ctx, o) else SettleBuy(p, id, ctx, o)
    else p
  }

  function PollRecheckStep(p: Proc): Proc {
    if p.poll.Polling? && p.poll.at.Opening? && p.poll.at.ctx.BuyCtx? then
      var Opening(id, ctx, price, qty) := p.poll.at;
      var op := if ctx.contract in p.positions
                then Some(OpenRow(id, Row(ctx.contract, ctx.terms, price, qty, None))) else None;
      p.(poll := Polling(p.poll.todo, Storing(op, Some(FillEvent(id, price, qty)))))
    else p
  }

  /** The DB helpers swallow their own failures (`ok` false), so the event is returned either way. */
  function PollStoreStep(s: State, ok: bool): State {
    if s.p.poll.Polling? && s.p.poll.at.Storing? then
      var Storing(op, event) := s.p.poll.at;
      s.(p := s.p.(poll := Polling(s.p.poll.todo, Ready),
                   events := s.p.events + (if event.Some? then [event.value] else []),
                   inserts := s.p.inserts + (if op.Some? && op.value.OpenRow? then [op.value.id] else [])),
         rows := if op.Some? && ok then ApplyDb(s.rows, op.value) else s.rows)
    else s
  }

  // ----- buy_option

  function BuyAdmitStep(p: Proc, tid: nat, c: Contract, terms: Terms, qty: nat): Proc {
    if p.reconciled && tid !in p.buys then p.(buys := p.buys[tid := BuyCall(c, terms, qty, Admitted)]) else p
  }

  function BuyCheckMemoryStep(p: Proc, tid: nat): Proc {
    if tid in p.buys && p.buys[tid].at.Admitted? then
      var c := p.buys[tid].contract;
      if BuysPending(p.pending, c) != {} || c in p.positions then p.(buys := p.buys - {tid})
      else p.(buys := p.buys[tid := p.buys[tid].(at := MemoryChecked)])
    else p
  }

  /** _fetch_open_position answers None on any API error (`ok` false). */
  function BuyCheckBrokerStep(b: Broker, p: Proc, tid: nat, ok: bool): Proc {
    if tid in p.buys && p.buys[tid].at.MemoryChecked? then
      if ok && b.Net(p.buys[tid].contract) != 0 then p.(buys := p.buys - {tid})
      else p.(buys := p.buys[tid := p.buys[tid].(at := Cleared)])
    else p
  }

  /** Any later skip: preflight limits, position cap, quote, notional cap, or a refused submit. */
  function BuyGiveUpStep(p: Proc, tid: nat): Proc {
    if tid in p.buys && !p.buys[tid].at.Sent? then p.(buys := p.buys - {tid}) else p
  }

  function BuySubmitStep(s: State, tid: nat, id: OrderId): State {
    if tid in s.p.buys && s.p.buys[tid].at.Cleared? && id !in s.b.orders then
      var call := s.p.buys[tid];
      s.(b := s.b.Submit(id, call.contract, Buy, call.qty), p := s.p.(buys := s.p.buys[tid := call.(at := Sent(id))]))
    else s
  }

  function BuyRegisterStep(p: Proc, tid: nat): Proc {
    if tid in p.buys && p.buys[tid].at.Sent? then
      var call := p.buys[tid];
      p.(buys := p.buys - {tid}, pending := p.pending[call.at.id := BuyCtx(call.contract, call.terms, call.qty, false)])
    else p
  }

  // ----- sell_option

  /** The caller side of two assumptions: calls for one contract do not overlap, and nothing is sold
      before the first successful reconcile. */
  predicate MaySell(p: Proc, c: Contract) {
    p.reconciled && c !in p.sells
  }

  function SellEnter(p: Proc, c: Contract, reason: string): Proc {
    if SellPending(p.pending, c) then p
    else p.(sells := p.sells[c := SellCall(reason, {}, Cancelling(BuysPending(p.pending, c)))])
  }

  function SellBeginStep(p: Proc, c: Contract, reason: string): Proc {
    if MaySell(p, c) then SellEnter(p, c, reason) else p
  }

  function SellCancelStep(s: State, c: Contract, id: OrderId, ok: bool): State {
    if c in s.p.sells && s.p.sells[c].at.Cancelling? && id in s.p.sells[c].at.todo then
      var call := s.p.sells[c];
      var at := Cancelling(call.at.todo - {id});
      if ok && s.b.CanCancel(id) then
        s.(b := s.b.Cancel(id), p := s.p.(sells := s.p.sells[c := call.(at := at, canceled := call.canceled + {id})]))
      else s.(p := s.p.(sells := s.p.sells[c := call.(at := at)]))
    else s
  }

  function SellSizeStep(b: Broker, p: Proc, c: Contract, ok: bool): Proc {
    if c in p.sells && p.sells[c].at == Cancelling({}) then
      if !ok then p.(sells := p.sells - {c})
      else if b.Net(c) <= 0 then
        p.(positions := p.positions - {c}, pending := WithoutContract(p.pending, c), sells := p.sells - {c})
      else p.(sells := p.sells[c := p.sells[c].(at := Sized(b.Net(c)))])
    else p
  }

  function SellSubmitStep(s: State, c: Contract, id: OrderId, ok: bool): State {
    if c in s.p.sells && s.p.sells[c].at.Sized? then
      var call := s.p.sells[c];
      if !ok then s.(p := s.p.(sells := s.p.sells - {c}))
      else if id in s.b.orders then s
      else s.(b := s.b.Submit(id, c, Sell, call.at.qty), p := s.p.(sells := s.p.sells[c := call.(at := SellSent(id))]))
    else s
  }

  function SellRegisterStep(p: Proc, c: Contract): Proc {
    if c in p.sells && p.sells[c].at.SellSent? then
      var call := p.sells[c];
      var symbol := if c in p.positions then Some(p.positions[c].terms.symbol) else None;
      p.(sells := p.sells - {c}, pending := (p.pending - call.canceled)[call.at.id := SellCtx(c, symbol, call.reason)])
    else p
  }

  // ----- reconcile_tracked_state_once, option part

  function HeldContracts(b: Broker): map<Contract, int> {
    map c | c in b.net && b.net[c] != 0 :: b.net[c]
  }

  function OpenOrders(b: Broker): map<OrderId, Order> {
    map id | id in b.orders && b.orders[id].Open() :: b.orders[id]
  }

  function OpenRowContracts(rows: seq<Row>): set<Contract> {
    set r | r in rows && r.exit.None? :: r.contract
  }

  function ReconBeginStep(b: Broker, p: Proc): Proc {
    if !p.reconciled && p.recon.NotRunning? then p.(recon := ReadPositions(HeldContracts(b))) else p
  }

  function ReconRowsStep(s: State, ok: bool): Proc {
    if s.p.recon.ReadPositions? then
      s.p.(recon := if ok then Restoring(s.p.recon.held, s.p.recon.held.Keys, OpenRowContracts(s.rows)) else NotRunning)
    else s.p
  }

  /** `entry` is what the open row, or the contract symbol and average entry price, yield; None when
      neither is usable. A short position and an already tracked contract are passed over. */
  function ReconRestoreStep(p: Proc, c: Contract, entry: Option<(Terms, real)>): Proc {
    if p.recon.Restoring? && c in p.recon.todo && c in p.recon.held then
      var q := p.(recon := p.recon.(todo := p.recon.todo - {c}));
      if c in p.positions || p.recon.held[c] < 0 || entry.None? then q
      else q.(positions := p.positions[c := Position(entry.value.0, entry.value.1, p.recon.held[c])])
    else p
  }

  /** The attempt fails (`ok` false) when the list cannot be read, or before that when the rebuild raises
      with positions left to do. */
  function ReconOrdersStep(b: Broker, p: Proc, ok: bool): Proc {
    if p.recon.Restoring? && !ok then p.(recon := NotRunning)
    else if p.recon.Restoring? && p.recon.todo == {} then p.(recon := Registering(OpenOrders(b), p.recon.openRows))
    else p
  }

  function ReconRegisterStep(p: Proc, id: OrderId, parsed: Option<Terms>): Proc {
    if p.recon.Registering? && id in p.recon.orders then
      var o := p.recon.orders[id];
      var q := p.(recon := p.recon.(orders := p.recon.orders - {id}));
      if id in p.pending then q
      else if o.side == Sell then
        var symbol := if o.contract in p.positions then Some(p.positions[o.contract].terms.symbol) else None;
        q.(pending := p.pending[id := SellCtx(o.contract, symbol, "reconstructed_after_restart")])
      else if parsed.None? then q
      else q.(pending := p.pending[id := BuyCtx(o.contract, parsed.value, o.qty, o.contract in p.recon.openRows)])
    else p
  }

  function ReconFinishStep(p: Proc): Proc {
    if p.recon.Registering? && p.recon.orders == map[] then p.(recon := NotRunning, reconciled := true) else p
  }

  // ----- runs

  function Apply(s: State, st: Step): State {
    match st
    case BrokerAdvance(id, n, avgPrice, status) => s.(b := s.b.Advance(id, n, avgPrice, status))
    case Crash => s.(p := FRESH)
    case PollBegin(ids) => s.(p := PollBeginStep(s.p, ids))
    case PollRead(ok) => s.(p := PollReadStep(s.b, s.p, ok))
    case PollCommit => s.(p := PollCommitStep(s.p))
    case PollRecheck => s.(p := PollRecheckStep(s.p))
    case PollStore(ok) => PollStoreStep(s, ok)
    case BuyAdmit(tid, c, terms, qty) => s.(p := BuyAdmitStep(s.p, tid, c, terms, qty))
    case BuyCheckMemory(tid) => s.(p := BuyCheckMemoryStep(s.p, tid))
    case BuyCheckBroker(tid, ok) => s.(p := BuyCheckBrokerStep(s.b, s.p, tid, ok))
    case BuyGiveUp(tid) => s.(p := BuyGiveUpStep(s.p, tid))
    case BuySubmit(tid, id) => BuySubmitStep(s, tid, id)
    case BuyRegister(tid) => s.(p := BuyRegisterStep(s.p, tid))
    case SellBegin(c, reason) => s.(p := SellBeginStep(s.p, c, reason))
    case SellCancel(c, id, ok) => SellCancelStep(s, c, id, ok)
    case SellSize(c, ok) => s.(p := SellSizeStep(s.b, s.p, c, ok))
    case SellSubmit(c, id, ok) => SellSubmitStep(s, c, id, ok)
    case SellRegister(c) => s.(p := SellRegisterStep(s.p, c))
    case ReconBegin => s.(p := ReconBeginStep(s.b, s.p))
    case ReconRows(ok) => s.(p := ReconRowsStep(s, ok))
    case ReconRestore(c, entry) => s.(p := ReconRestoreStep(s.p, c, entry))
    case ReconOrders(ok) => s.(p := ReconOrdersStep(s.b, s.p, ok))
    case ReconRegister(id, parsed) => s.(p := ReconRegisterStep(s.p, id, parsed))
    case ReconFinish => s.(p := ReconFinishStep(s.p))
  }

  function Run(s: State, steps: seq<Step>): State
    decreases |steps|
  {
    if steps == [] then s else Run(Apply(s, steps[0]), steps[1..])
  }

  /** No crash: all steps fall within one process life. */
  ghost predicate OneLife(steps: seq<Step>) {
    forall k :: 0 <= k < |steps| ==> !steps[k].Crash?
  }

  lemma {:induction false} RunAppend(s: State, first: seq<Step>, second: seq<Step>)
    ensures Run(s, first + second) == Run(Run(s, first), second)
    decreases |first|
  {
    if first == [] {
      assert first + second == second;
    } else {
      assert (first + second)[1..] == first[1..] + second;
      RunAppend(Apply(s, first[0]), first[1..], second);
    }
  }
}
