/** The open rows of a contract as a list of premium and quantity, and what the database calls do to it. */
module OpenRows {
  import opened OptionBroker
  import opened OptionProtocol
  import opened ExitConservation

  function OpenRowsOf(rows: seq<Row>, c: Contract): seq<(real, nat)> {
    if rows == [] then []
    else
      var earlier, last := OpenRowsOf(rows[..|rows| - 1], c), rows[|rows| - 1];
      if last.OpenFor(c) then earlier + [(last.entryPremium, last.qty)] else earlier
  }

  lemma {:induction false} NoneOpen(rows: seq<Row>, c: Contract)
    ensures OpenRowsOf(rows, c) == [] <==> forall k :: 0 <= k < |rows| ==> !rows[k].OpenFor(c)
  {
    if rows != [] {
      NoneOpen(rows[..|rows| - 1], c);
    }
  }

  ghost predicate OnlyOpen(rows: seq<Row>, c: Contract, k: nat) {
    k < |rows| && rows[k].OpenFor(c) && forall l :: 0 <= l < |rows| && rows[l].OpenFor(c) ==> l == k
  }

  lemma {:induction false} OneOpen(rows: seq<Row>, c: Contract, v: (real, nat))
    ensures OpenRowsOf(rows, c) == [v] <==> exists k: nat :: OnlyOpen(rows, c, k) && (rows[k].entryPremium, rows[k].qty) == v
    decreases |rows|
  {
    if rows != [] {
      var n := |rows| - 1;
      var init := rows[..n];
      NoneOpen(init, c);
      OneOpen(init, c, v);
      assert forall k :: 0 <= k < n ==> init[k] == rows[k];
      if !rows[n].OpenFor(c) {
        assert forall k: nat :: OnlyOpen(rows, c, k) <==> OnlyOpen(init, c, k);
      } else if OpenRowsOf(init, c) == [] {
        assert OnlyOpen(rows, c, n);
        assert forall k: nat :: OnlyOpen(rows, c, k) ==> k == n;
        assert OpenRowsOf(rows, c) == [(rows[n].entryPremium, rows[n].qty)];
      } else {
        var k: nat :| k < n && init[k].OpenFor(c);
        assert rows[k].OpenFor(c);
        assert forall l: nat :: !OnlyOpen(rows, c, l);
        assert |OpenRowsOf(rows, c)| >= 2;
      }
    }
  }

  /** The rows match when the list is the tracked entry alone, or empty when nothing is tracked. */
  lemma RowsMatchIff(rows: seq<Row>, c: Contract, positions: Positions)
    ensures RowsMatch(rows, c, positions)
      <==> OpenRowsOf(rows, c) == if c in positions then [(positions[c].entryPremium, positions[c].qty)] else []
  {
    NoneOpen(rows, c);
    if c in positions {
      OneOpen(rows, c, (positions[c].entryPremium, positions[c].qty));
      if RowsMatch(rows, c, positions) {
        var k: nat :| k < |rows| && rows[k].OpenFor(c);
        assert OnlyOpen(rows, c, k);
      }
    }
  }

  function Restated(list: seq<(real, nat)>, v: (real, nat)): seq<(real, nat)> {
    seq(|list|, _ => v)
  }

  lemma {:induction false} UpdateRestates(rows: seq<Row>, d: Contract, premium: real, qty: nat, c: Contract)
    ensures OpenRowsOf(UpdateOpenRows(rows, d, premium, qty), c)
      == if c == d then Restated(OpenRowsOf(rows, c), (premium, qty)) else OpenRowsOf(rows, c)
    decreases |rows|
  {
    if rows != [] {
      var n := |rows| - 1;
      var rows' := UpdateOpenRows(rows, d, premium, qty);
      assert rows'[..n] == UpdateOpenRows(rows[..n], d, premium, qty);
      UpdateRestates(rows[..n], d, premium, qty, c);
    }
  }

  lemma {:induction false} CloseEmpties(rows: seq<Row>, d: Contract, reason: string, price: real, c: Contract)
    ensures OpenRowsOf(CloseOpenRows(rows, d, reason, price), c) == if c == d then [] else OpenRowsOf(rows, c)
    decreases |rows|
  {
    if rows != [] {
      var n := |rows| - 1;
      var rows' := CloseOpenRows(rows, d, reason, price);
      assert rows'[..n] == CloseOpenRows(rows[..n], d, reason, price);
      CloseEmpties(rows[..n], d, reason, price, c);
    }
  }

  lemma OpenAdds(rows: seq<Row>, row: Row, c: Contract)
    requires row.contract != c
    ensures OpenRowsOf(rows + [row], c) == OpenRowsOf(rows, c)
  {
    assert (rows + [row])[..|rows|] == rows;
  }

  /** A database call for another contract. */
  lemma OtherRowsStay(rows: seq<Row>, op: DbOp, c: Contract)
    requires op.OpenRow? ==> op.row.contract != c
    requires !op.OpenRow? ==> op.contract != c
    ensures OpenRowsOf(ApplyDb(rows, op), c) == OpenRowsOf(rows, c)
  {
    match op
    case OpenRow(_, row) => OpenAdds(rows, row, c);
    case UpdateRow(d, premium, qty) => UpdateRestates(rows, d, premium, qty, c);
    case CloseRow(d, reason, price) => CloseEmpties(rows, d, reason, price, c);
  }
}
