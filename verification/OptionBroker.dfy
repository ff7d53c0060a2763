/** The options venue as the Floor Broker sees it: orders with a cumulative filled quantity and a
    status that never leaves the terminal set, and a net position per contract that only fills of
    these orders move. Cancelling is atomic, and an order once accepted is never forgotten. */
module OptionBroker {

  type OrderId(==, !new)
  type Contract(==, !new)

  datatype Side = Buy | Sell

  datatype OrderStatus =
    | New | PartiallyFilled | Filled | DoneForDay | Canceled | Expired | Replaced | PendingCancel
    | PendingReplace | PendingReview | Accepted | PendingNew | AcceptedForBidding | Stopped
    | Rejected | Suspended | Held

  const OPTION_NON_TERMINAL: set<OrderStatus> := {
    New, PartiallyFilled, Accepted, PendingNew, AcceptedForBidding, Held, PendingCancel,
    PendingReplace, PendingReview
  }

  /** `avgPrice` is meaningful once something has filled: the venue's filled_avg_price is None
      exactly while `filled` is 0. */
  datatype Order = Order(contract: Contract, side: Side, qty: nat, filled: nat, avgPrice: real, status: OrderStatus) {
    predicate Open() {
      status in OPTION_NON_TERMINAL
    }
  }

  datatype Broker = Broker(orders: map<OrderId, Order>, net: map<Contract, int>) {

    function Net(c: Contract): int {
      if c in net then net[c] else 0
    }

    /** An open order fills by `n` more contracts and takes any status, terminal or not. */
    function Advance(id: OrderId, n: nat, avgPrice: real, status: OrderStatus): Broker {
      if id in orders && orders[id].Open() && orders[id].filled + n <= orders[id].qty then
        var o := orders[id];
        Broker(
          orders[id := o.(filled := o.filled + n, avgPrice := avgPrice, status := status)],
          net[o.contract := if o.side == Buy then Net(o.contract) + n else Net(o.contract) - n])
      else
        this
    }

    predicate CanCancel(id: OrderId) {
      id in orders && orders[id].Open()
    }

    function Cancel(id: OrderId): Broker
      requires CanCancel(id)
    {
      this.(orders := orders[id := orders[id].(status := Canceled)])
    }

    function Submit(id: OrderId, c: Contract, side: Side, qty: nat): Broker
      requires id !in orders
    {
      this.(orders := orders[id := Order(c, side, qty, 0, 0.0, New)])
    }

    ghost predicate OpenSell(id: OrderId) {
      id in orders && orders[id].side == Sell && orders[id].Open()
    }

    /** No contract is short or can become short: positions are not negative, a contract has at most
        one open SELL, and the position covers what that SELL may still take. */
    ghost predicate NeverShort() {
      && (forall id :: id in orders ==> orders[id].filled <= orders[id].qty)
      && (forall c :: Net(c) >= 0)
      && (forall i, j :: OpenSell(i) && OpenSell(j) && orders[i].contract == orders[j].contract ==> i == j)
      && (forall i :: OpenSell(i) ==> Net(orders[i].contract) >= orders[i].qty - orders[i].filled)
    }
  }
}
