/** Committed transactions of several orders in any interleaving. */
module Journal {
  import opened Common
  import opened Inventory

  datatype Move = Move(act: Activity, items: seq<Item>)

  /** The transactions one after the other; `None` as soon as one is refused. */
  function RunMoves(table: Table, moves: seq<Move>): Option<Table>
    decreases |moves|
  {
    if moves == [] then Some(table)
    else
      var next := RunAll(moves[0].act, table, moves[0].items);
      if next.None? then None else RunMoves(next.value, moves[1..])
  }

  /** What the moves do to one row. */
  function Net(moves: seq<Move>, row: Row, p: int): Row {
    if moves == [] then row
    else Net(moves[1..], Applied(moves[0].act, row, Demand(moves[0].items, p)), p)
  }

  lemma {:induction false} MovesActRowByRow(table: Table, moves: seq<Move>)
    requires RunMoves(table, moves).Some?
    ensures RunMoves(table, moves).value == map p | p in table :: Net(moves, table[p], p)
    decreases |moves|
  {
    if moves == [] {
      assert table == map p | p in table :: Net(moves, table[p], p);
    } else {
      CommitMovesDemand(moves[0].act, table, moves[0].items);
      MovesActRowByRow(RunAll(moves[0].act, table, moves[0].items).value, moves[1..]);
    }
  }

  lemma {:induction false} NetConcat(a: seq<Move>, b: seq<Move>, row: Row, p: int)
    ensures Net(a + b, row, p) == Net(b, Net(a, row, p), p)
  {
    if a == [] {
      assert a + b == b;
    } else {
      assert (a + b)[1..] == a[1..] + b;
      NetConcat(a[1..], b, Applied(a[0].act, row, Demand(a[0].items, p)), p);
    }
  }

  /** An update commutes with everything that others do to the row. */
  lemma {:induction false} NetCommutes(moves: seq<Move>, act: Activity, row: Row, q: int, p: int)
    ensures Net(moves, Applied(act, row, q), p) == Applied(act, Net(moves, row, p), q)
  {
    if moves != [] {
      var d := Demand(moves[0].items, p);
      assert Applied(moves[0].act, Applied(act, row, q), d) == Applied(act, Applied(moves[0].act, row, d), q);
      NetCommutes(moves[1..], act, Applied(moves[0].act, row, d), q, p);
    }
  }

  lemma NetOfOne(act: Activity, items: seq<Item>, row: Row, p: int)
    ensures Net([Move(act, items)], row, p) == Applied(act, row, Demand(items, p))
  {
    assert Net([], Applied(act, row, Demand(items, p)), p) == Applied(act, row, Demand(items, p));
  }

  /** A committed reservation that is released later leaves only what the others did in between. */
  lemma ReleaseCancelsReserve(table: Table, mid: seq<Move>, items: seq<Item>)
    requires RunMoves(table, [Move(Reserve, items)] + mid + [Move(Release, items)]).Some?
    ensures RunMoves(table, [Move(Reserve, items)] + mid + [Move(Release, items)]).value ==
              map p | p in table :: Net(mid, table[p], p)
  {
    var all := [Move(Reserve, items)] + mid + [Move(Release, items)];
    MovesActRowByRow(table, all);
    forall p | p in table ensures Net(all, table[p], p) == Net(mid, table[p], p) {
      var d := Demand(items, p);
      NetConcat([Move(Reserve, items)] + mid, [Move(Release, items)], table[p], p);
      NetConcat([Move(Reserve, items)], mid, table[p], p);
      NetOfOne(Reserve, items, table[p], p);
      NetCommutes(mid, Reserve, table[p], d, p);
      NetOfOne(Release, items, Applied(Reserve, Net(mid, table[p], p), d), p);
    }
  }

  function SoldAndRestored(mid: seq<Move>, late: seq<Move>, items: seq<Item>): seq<Move> {
    [Move(Reserve, items)] + mid + [Move(Confirm, items)] + late + [Move(Restore, items)]
  }

  /** So does a reservation that is confirmed and then restored. */
  lemma RestoreCancelsConfirmedReserve(table: Table, mid: seq<Move>, late: seq<Move>, items: seq<Item>)
    requires RunMoves(table, SoldAndRestored(mid, late, items)).Some?
    ensures RunMoves(table, SoldAndRestored(mid, late, items)).value ==
              map p | p in table :: Net(mid + late, table[p], p)
  {
    var toConfirm := [Move(Reserve, items)] + mid + [Move(Confirm, items)];
    var all := SoldAndRestored(mid, late, items);
    MovesActRowByRow(table, all);
    forall p | p in table ensures Net(all, table[p], p) == Net(mid + late, table[p], p) {
      var d, row := Demand(items, p), Net(mid, table[p], p);
      NetConcat([Move(Reserve, items)] + mid, [Move(Confirm, items)], table[p], p);
      NetConcat([Move(Reserve, items)], mid, table[p], p);
      NetOfOne(Reserve, items, table[p], p);
      NetCommutes(mid, Reserve, table[p], d, p);
      NetOfOne(Confirm, items, Applied(Reserve, row, d), p);
      assert Net(toConfirm, table[p], p) == Applied(Confirm, Applied(Reserve, row, d), d);
      NetConcat(toConfirm + late, [Move(Restore, items)], table[p], p);
      NetConcat(toConfirm, late, table[p], p);
      NetCommutes(late, Confirm, Applied(Reserve, row, d), d, p);
      NetCommutes(late, Reserve, row, d, p);
      NetConcat(mid, late, table[p], p);
      NetOfOne(Restore, items, Net(toConfirm + late, table[p], p), p);
    }
  }

  /**
   * No inventory activity remembers for which order it ran: when a reservation took effect but its
   * acknowledgement was lost, the retry reserves again, and one release leaves the first one behind.
   */
  lemma RetriedReserveLeaks(table: Table, items: seq<Item>, p: int)
    requires RunMoves(table, [Move(Reserve, items), Move(Reserve, items), Move(Release, items)]).Some?
    requires p in table
    ensures
      var after := RunMoves(table, [Move(Reserve, items), Move(Reserve, items), Move(Release, items)]).value;
      p in after && after[p] == Applied(Reserve, table[p], Demand(items, p))
  {
    var twice := [Move(Reserve, items)] + [Move(Reserve, items)] + [Move(Release, items)];
    assert twice == [Move(Reserve, items), Move(Reserve, items), Move(Release, items)];
    ReleaseCancelsReserve(table, [Move(Reserve, items)], items);
    NetOfOne(Reserve, items, table[p], p);
  }
}
