/** The venue moving on its own, as a list of fills and as steps. */
module VenueMoves {
  import opened OptionBroker
  import opened OptionProtocol

  /** An order fills by `n` more, or ends. */
  datatype Fill = Fill(id: OrderId, n: nat, avgPrice: real, status: OrderStatus)

  function Trade(b: Broker, fills: seq<Fill>): Broker
    decreases |fills|
  {
    if fills == [] then b else Trade(b.Advance(fills[0].id, fills[0].n, fills[0].avgPrice, fills[0].status), fills[1..])
  }

  function Moves(fills: seq<Fill>): seq<Step> {
    if fills == [] then []
    else [BrokerAdvance(fills[0].id, fills[0].n, fills[0].avgPrice, fills[0].status)] + Moves(fills[1..])
  }

  lemma {:induction false} MovesTrade(s: State, fills: seq<Fill>)
    ensures Run(s, Moves(fills)) == s.(b := Trade(s.b, fills))
    decreases |fills|
  {
    if fills != [] {
      var first := BrokerAdvance(fills[0].id, fills[0].n, fills[0].avgPrice, fills[0].status);
      assert Moves(fills)[1..] == Moves(fills[1..]);
      MovesTrade(Apply(s, first), fills[1..]);
    }
  }
}
