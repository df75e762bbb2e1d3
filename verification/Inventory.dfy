/**
 * The guarded row updates of the four inventory activities, and the transaction that
 * loops one of them over the items of an order.
 */
module Inventory {
  import opened Common

  datatype Item = Item(product: int, quantity: int)

  datatype Row = Row(stock: int, reserved: int)

  // One row per product: `product_id` is unique in the table.
  type Table = map<int, Row>

  datatype Activity = Reserve | Confirm | Release | Restore

  /** The `where` clause of the activity's update, apart from the product. */
  predicate Matches(act: Activity, row: Row, quantity: int) {
    match act
    case Reserve => row.stock - row.reserved >= quantity
    case Confirm => row.reserved >= quantity
    case Release => row.reserved >= quantity
    case Restore => true
  }

  /** The `set` clause of the activity's update. */
  function Applied(act: Activity, row: Row, quantity: int): Row {
    match act
    case Reserve => row.(reserved := row.reserved + quantity)
    case Confirm => Row(row.stock - quantity, row.reserved - quantity)
    case Release => row.(reserved := row.reserved - quantity)
    case Restore => row.(stock := row.stock + quantity)
  }

  /** One update; `None` when it affects no row. */
  function UpdateOne(act: Activity, table: Table, item: Item): Option<Table> {
    if item.product in table && Matches(act, table[item.product], item.quantity)
    then Some(table[item.product := Applied(act, table[item.product], item.quantity)])
    else None
  }

  /** The whole transaction; `None` when some update affects no row, which rolls it back. */
  function RunAll(act: Activity, table: Table, items: seq<Item>): Option<Table> {
    if items == [] then Some(table)
    else
      var first := UpdateOne(act, table, items[0]);
      if first.None? then None else RunAll(act, first.value, items[1..])
  }

  /** Units of `product` that `items` ask for, over all the lines that name it. */
  function Demand(items: seq<Item>, product: int): int {
    if items == [] then 0
    else (if items[0].product == product then items[0].quantity else 0) + Demand(items[1..], product)
  }

  predicate NonNegative(items: seq<Item>) {
    forall i :: 0 <= i < |items| ==> items[i].quantity >= 0
  }

  predicate Stocked(table: Table, items: seq<Item>) {
    forall i :: 0 <= i < |items| ==> items[i].product in table
  }

  /** Every product asked for is in the table, and its row matches the product's whole demand. */
  predicate Covers(act: Activity, table: Table, items: seq<Item>) {
    forall i :: 0 <= i < |items| ==>
      items[i].product in table &&
      Matches(act, table[items[i].product], Demand(items, items[i].product))
  }

  /** Each row updated once, by the product's whole demand. */
  function Moved(act: Activity, table: Table, items: seq<Item>): Table {
    map p | p in table :: Applied(act, table[p], Demand(items, p))
  }

  // ----- demand -----

  lemma {:induction false} DemandNonNegative(items: seq<Item>, product: int)
    requires NonNegative(items)
    ensures Demand(items, product) >= 0
  {
    if items != [] {
      DemandNonNegative(items[1..], product);
    }
  }

  lemma {:induction false} DemandOfAbsent(items: seq<Item>, product: int)
    requires forall i :: 0 <= i < |items| ==> items[i].product != product
    ensures Demand(items, product) == 0
  {
    if items != [] {
      DemandOfAbsent(items[1..], product);
    }
  }

  lemma {:induction false} DemandConcat(a: seq<Item>, b: seq<Item>, product: int)
    ensures Demand(a + b, product) == Demand(a, product) + Demand(b, product)
  {
    if a == [] {
      assert a + b == b;
    } else {
      assert (a + b)[1..] == a[1..] + b;
      DemandConcat(a[1..], b, product);
    }
  }

  lemma WithoutOne(items: seq<Item>, i: nat)
    requires i < |items|
    ensures multiset(items[..i] + items[i + 1..]) == multiset(items) - multiset{items[i]}
  {
    assert items == items[..i] + ([items[i]] + items[i + 1..]);
  }

  lemma DemandWithoutOne(items: seq<Item>, i: nat, product: int)
    requires i < |items|
    ensures Demand(items, product) ==
              (if items[i].product == product then items[i].quantity else 0) +
              Demand(items[..i] + items[i + 1..], product)
  {
    DemandConcat(items[..i], items[i + 1..], product);
    DemandConcat(items[..i], [items[i]] + items[i + 1..], product);
    assert items == items[..i] + ([items[i]] + items[i + 1..]);
  }

  /** Demand does not depend on the order of the lines. */
  lemma {:induction false} DemandOfPermutation(a: seq<Item>, b: seq<Item>, product: int)
    requires multiset(a) == multiset(b)
    ensures Demand(a, product) == Demand(b, product)
  {
    if a == [] {
      assert |b| == |multiset(b)| == 0;
    } else {
      var i := IndexIn(a[0], b, a);
      WithoutOne(a, 0);
      WithoutOne(b, i);
      assert a[..0] + a[1..] == a[1..];
      DemandOfPermutation(a[1..], b[..i] + b[i + 1..], product);
      DemandWithoutOne(b, i, product);
    }
  }

  lemma IndexIn(item: Item, b: seq<Item>, a: seq<Item>) returns (i: nat)
    requires multiset(a) == multiset(b) && item in a
    ensures i < |b| && b[i] == item
  {
    assert item in multiset(b);
    i :| 0 <= i < |b| && b[i] == item;
  }

  // ----- the transaction as one closed form -----

  /** A transaction that commits moves every row by its whole demand, whatever the signs. */
  lemma {:induction false} CommitMovesDemand(act: Activity, table: Table, items: seq<Item>)
    ensures RunAll(act, table, items).Some? ==>
              RunAll(act, table, items).value == Moved(act, table, items)
  {
    if items == [] {
      assert Moved(act, table, items) == table;
    } else if UpdateOne(act, table, items[0]).Some? {
      var next := UpdateOne(act, table, items[0]).value;
      CommitMovesDemand(act, next, items[1..]);
      forall p | p in table
        ensures p in next && Applied(act, next[p], Demand(items[1..], p)) == Applied(act, table[p], Demand(items, p))
      {
      }
      assert Moved(act, next, items[1..]) == Moved(act, table, items);
    }
  }

  /** Exactly when the transaction commits, for quantities of any sign: each prefix must be covered. */
  predicate PrefixesCovered(act: Activity, table: Table, items: seq<Item>) {
    forall i :: 0 <= i < |items| ==>
      items[i].product in table &&
      Matches(act, table[items[i].product], Demand(items[..i + 1], items[i].product))
  }

  lemma {:induction false} CommitsIffPrefixesCovered(act: Activity, table: Table, items: seq<Item>)
    ensures RunAll(act, table, items).Some? <==> PrefixesCovered(act, table, items)
  {
    if items != [] {
      var head, rest := items[0], items[1..];
      assert items[..1] == [head];
      assert Demand([head], head.product) == head.quantity;
      if UpdateOne(act, table, head).Some? {
        var next := UpdateOne(act, table, head).value;
        CommitsIffPrefixesCovered(act, next, rest);
        forall i | 0 <= i < |rest|
          ensures rest[i].product in next <==> items[i + 1].product in table
          ensures rest[i].product in next ==>
            (Matches(act, next[rest[i].product], Demand(rest[..i + 1], rest[i].product)) <==>
             Matches(act, table[rest[i].product], Demand(items[..i + 2], rest[i].product)))
        {
          assert items[..i + 2][1..] == rest[..i + 1];
        }
        assert forall i :: 0 < i < |items| ==> items[i] == rest[i - 1];
        if PrefixesCovered(act, table, items) {
          forall i | 0 <= i < |rest|
            ensures rest[i].product in next
            ensures Matches(act, next[rest[i].product], Demand(rest[..i + 1], rest[i].product))
          {
            assert items[i + 1] == rest[i];
          }
        }
      } else {
        assert !(head.product in table && Matches(act, table[head.product], Demand(items[..0 + 1], head.product)));
      }
    }
  }

  /** A transaction that commits covers every product's whole demand, whatever the signs. */
  lemma CommitCovers(act: Activity, table: Table, items: seq<Item>)
    requires RunAll(act, table, items).Some?
    ensures Covers(act, table, items)
  {
    CommitsIffPrefixesCovered(act, table, items);
    forall i | 0 <= i < |items|
      ensures items[i].product in table
      ensures Matches(act, table[items[i].product], Demand(items, items[i].product))
    {
      var last := LastLineOf(items, items[i].product, i);
      LastLineHasWholeDemand(items, last);
    }
  }

  /**
   * A transaction that commits covers every product's whole demand, duplicates included, and moves
   * each row by it. With no negative quantity it also commits whenever they are covered.
   */
  lemma ClosedForm(act: Activity, table: Table, items: seq<Item>)
    ensures RunAll(act, table, items).Some? ==>
              Covers(act, table, items) && RunAll(act, table, items).value == Moved(act, table, items)
    ensures NonNegative(items) ==>
              RunAll(act, table, items) == if Covers(act, table, items) then Some(Moved(act, table, items)) else None
  {
    CommitMovesDemand(act, table, items);
    if RunAll(act, table, items).Some? {
      CommitCovers(act, table, items);
    }
    if NonNegative(items) && Covers(act, table, items) {
      CoveredCommits(act, table, items);
    }
  }

  lemma CoveredCommits(act: Activity, table: Table, items: seq<Item>)
    requires NonNegative(items) && Covers(act, table, items)
    ensures RunAll(act, table, items).Some?
  {
    CommitsIffPrefixesCovered(act, table, items);
    forall i | 0 <= i < |items|
      ensures Demand(items[..i + 1], items[i].product) <= Demand(items, items[i].product)
    {
      assert items == items[..i + 1] + items[i + 1..];
      DemandConcat(items[..i + 1], items[i + 1..], items[i].product);
      DemandNonNegative(items[i + 1..], items[i].product);
    }
  }

  /** Index of the last line for `product`, given one line `i` for it. */
  ghost function LastLineOf(items: seq<Item>, product: int, i: nat): (last: nat)
    requires i < |items| && items[i].product == product
    ensures last < |items| && items[last].product == product
    ensures forall j :: last < j < |items| ==> items[j].product != product
    decreases |items| - i
  {
    if j :| i < j < |items| && items[j].product == product then LastLineOf(items, product, j) else i
  }

  lemma LastLineHasWholeDemand(items: seq<Item>, last: nat)
    requires last < |items|
    requires forall j :: last < j < |items| ==> items[j].product != items[last].product
    ensures Demand(items[..last + 1], items[last].product) == Demand(items, items[last].product)
  {
    assert items == items[..last + 1] + items[last + 1..];
    DemandConcat(items[..last + 1], items[last + 1..], items[last].product);
    DemandOfAbsent(items[last + 1..], items[last].product);
  }

  lemma SameDemandSameCover(act: Activity, table: Table, a: seq<Item>, b: seq<Item>)
    requires forall p :: Demand(a, p) == Demand(b, p)
    requires forall i :: 0 <= i < |b| ==> b[i] in a
    requires Covers(act, table, a)
    ensures Covers(act, table, b)
  {
    forall i | 0 <= i < |b|
      ensures b[i].product in table
      ensures Matches(act, table[b[i].product], Demand(b, b[i].product))
    {
      assert b[i] in a;
      var j :| 0 <= j < |a| && a[j] == b[i];
    }
  }

  lemma PermutationKeepsLines(a: seq<Item>, b: seq<Item>)
    requires multiset(a) == multiset(b)
    ensures forall i :: 0 <= i < |b| ==> b[i] in a
    ensures NonNegative(a) ==> NonNegative(b)
  {
    forall i | 0 <= i < |b| ensures b[i] in a {
      assert b[i] in multiset(a);
    }
  }

  /**
   * What a committed transaction does never depends on the order of the items; with no negative
   * quantity, neither does whether it commits.
   */
  lemma OrderIndependent(act: Activity, table: Table, a: seq<Item>, b: seq<Item>)
    requires multiset(a) == multiset(b)
    ensures RunAll(act, table, a).Some? && RunAll(act, table, b).Some? ==>
              RunAll(act, table, a) == RunAll(act, table, b)
    ensures NonNegative(a) ==> RunAll(act, table, a) == RunAll(act, table, b)
  {
    forall p ensures Demand(a, p) == Demand(b, p) {
      DemandOfPermutation(a, b, p);
    }
    CommitMovesDemand(act, table, a);
    CommitMovesDemand(act, table, b);
    assert Moved(act, table, a) == Moved(act, table, b);
    if NonNegative(a) {
      OrderIndependentCommit(act, table, a, b);
    }
  }

  lemma OrderIndependentCommit(act: Activity, table: Table, a: seq<Item>, b: seq<Item>)
    requires multiset(a) == multiset(b) && NonNegative(a)
    requires forall p :: Demand(a, p) == Demand(b, p)
    ensures RunAll(act, table, a) == RunAll(act, table, b)
  {
    PermutationKeepsLines(a, b);
    PermutationKeepsLines(b, a);
    ClosedForm(act, table, a);
    ClosedForm(act, table, b);
    if Covers(act, table, a) {
      SameDemandSameCover(act, table, a, b);
      assert Moved(act, table, a) == Moved(act, table, b);
    } else if Covers(act, table, b) {
      SameDemandSameCover(act, table, b, a);
    }
  }

  /**
   * Negative quantities break both claims: a list can be refused though its total demand is
   * available, and the same list in another order commits.
   */
  lemma NegativeQuantityBreaksClosedForm()
    ensures
      var table: Table := map[1 := Row(3, 0)];
      var items := [Item(1, 5), Item(1, -5)];
      && Covers(Reserve, table, items)
      && RunAll(Reserve, table, items).None?
      && RunAll(Reserve, table, [items[1], items[0]]).Some?
  {
    var table: Table := map[1 := Row(3, 0)];
    var items := [Item(1, 5), Item(1, -5)];
    assert items[1..] == [Item(1, -5)];
    assert Demand(items, 1) == 5 + Demand(items[1..], 1) == 5 + (-5 + Demand([], 1));
    var swapped := [items[1], items[0]];
    assert swapped[1..] == [Item(1, 5)];
    var next := UpdateOne(Reserve, table, swapped[0]).value;
    assert next[1] == Row(3, -5);
    assert RunAll(Reserve, next, swapped[1..]).Some?;
  }

  // ----- what one transaction undoes -----

  /** For every line, what is reserved without this order covers the order's later lines. */
  predicate Returnable(table: Table, items: seq<Item>) {
    forall i :: 0 <= i < |items| && items[i].product in table ==>
      table[items[i].product].reserved + Demand(items[i + 1..], items[i].product) >= 0
  }

  lemma OrdinaryIsReturnable(table: Table, items: seq<Item>)
    requires NonNegative(items)
    requires forall p :: p in table ==> table[p].reserved >= 0
    ensures Returnable(table, items)
  {
    forall i | 0 <= i < |items| ensures Demand(items[i + 1..], items[i].product) >= 0 {
      DemandNonNegative(items[i + 1..], items[i].product);
    }
  }

  /** Taking back what was just reserved passes the guards exactly when it is returnable. */
  lemma TakesBackIffReturnable(act: Activity, table: Table, items: seq<Item>)
    requires act.Release? || act.Confirm?
    requires RunAll(Reserve, table, items).Some?
    ensures RunAll(act, RunAll(Reserve, table, items).value, items).Some? <==> Returnable(table, items)
  {
    var held := RunAll(Reserve, table, items).value;
    CommitMovesDemand(Reserve, table, items);
    CommitsIffPrefixesCovered(Reserve, table, items);
    CommitsIffPrefixesCovered(act, held, items);
    forall i | 0 <= i < |items|
      ensures items[i].product in table && items[i].product in held
      ensures Matches(act, held[items[i].product], Demand(items[..i + 1], items[i].product)) <==>
              table[items[i].product].reserved + Demand(items[i + 1..], items[i].product) >= 0
    {
      assert items == items[..i + 1] + items[i + 1..];
      DemandConcat(items[..i + 1], items[i + 1..], items[i].product);
    }
  }

  /**
   * Releasing what was reserved restores the table, for quantities of any sign, exactly when the
   * reservation is returnable; without negative numbers it always is.
   */
  lemma ReserveThenReleaseIsIdentity(table: Table, items: seq<Item>)
    requires RunAll(Reserve, table, items).Some?
    ensures
      var back := RunAll(Release, RunAll(Reserve, table, items).value, items);
      && back == (if Returnable(table, items) then Some(table) else None)
      && (NonNegative(items) && (forall p :: p in table ==> table[p].reserved >= 0) ==> back == Some(table))
  {
    var held := RunAll(Reserve, table, items).value;
    TakesBackIffReturnable(Release, table, items);
    CommitMovesDemand(Reserve, table, items);
    CommitMovesDemand(Release, held, items);
    assert Moved(Release, held, items) == table;
    if NonNegative(items) && (forall p :: p in table ==> table[p].reserved >= 0) {
      OrdinaryIsReturnable(table, items);
    }
  }

  /** Restoring is never refused after a confirmation, and the two together are a release. */
  lemma ConfirmThenRestore(held: Table, items: seq<Item>)
    requires RunAll(Confirm, held, items).Some?
    ensures RunAll(Restore, RunAll(Confirm, held, items).value, items) == Some(Moved(Release, held, items))
  {
    var sold := RunAll(Confirm, held, items).value;
    CommitMovesDemand(Confirm, held, items);
    CommitsIffPrefixesCovered(Confirm, held, items);
    CommitsIffPrefixesCovered(Restore, sold, items);
    assert PrefixesCovered(Restore, sold, items);
    CommitMovesDemand(Restore, sold, items);
    assert Moved(Restore, sold, items) == Moved(Release, held, items);
  }

  /** The same for confirming and then restoring, which itself is never refused. */
  lemma ReserveConfirmRestoreIsIdentity(table: Table, items: seq<Item>)
    requires RunAll(Reserve, table, items).Some?
    ensures
      var sold := RunAll(Confirm, RunAll(Reserve, table, items).value, items);
      && (sold.Some? <==> Returnable(table, items))
      && (sold.Some? ==> RunAll(Restore, sold.value, items) == Some(table))
      && (NonNegative(items) && (forall p :: p in table ==> table[p].reserved >= 0) ==> sold.Some?)
  {
    var held := RunAll(Reserve, table, items).value;
    TakesBackIffReturnable(Confirm, table, items);
    CommitMovesDemand(Reserve, table, items);
    if NonNegative(items) && (forall p :: p in table ==> table[p].reserved >= 0) {
      OrdinaryIsReturnable(table, items);
    }
    if RunAll(Confirm, held, items).Some? {
      ConfirmThenRestore(held, items);
      assert Moved(Release, held, items) == table;
    }
  }

  // ----- the other operations on the table -----

  /** `adjustInventory`: the guard keeps the stock non-negative and looks at nothing else. */
  function Adjusted(table: Table, product: int, change: int): Option<Table> {
    if product in table && table[product].stock + change >= 0
    then Some(table[product := table[product].(stock := table[product].stock + change)])
    else None
  }

  /** `getAvailableStock`; `None` when the product has no row. */
  function Available(table: Table, product: int): (available: Option<int>)
    ensures available.Some? <==> product in table
    ensures product in table && table[product].reserved > table[product].stock ==> available == Some(0)
    ensures product in table && table[product].reserved <= table[product].stock ==>
              available == Some(table[product].stock - table[product].reserved)
  {
    if product !in table then None
    else
      var free := table[product].stock - table[product].reserved;
      Some(if free < 0 then 0 else free)
  }

  /** `getAvailableStock` reports at least `need`, and for a need that is not positive hides no deficit. */
  predicate Suffices(table: Table, product: int, need: int) {
    && Available(table, product).Some? && need <= Available(table, product).value
    && (need <= 0 ==> table[product].stock - table[product].reserved >= need)
  }

  /**
   * A reservation commits exactly when what `getAvailableStock` reports suffices line by line; with no
   * negative quantity, exactly when it suffices for each product's whole demand.
   */
  lemma ReservesIffAvailable(table: Table, items: seq<Item>)
    ensures RunAll(Reserve, table, items).Some? <==>
              forall i :: 0 <= i < |items| ==>
                Suffices(table, items[i].product, Demand(items[..i + 1], items[i].product))
    ensures NonNegative(items) ==>
              (RunAll(Reserve, table, items).Some? <==>
                 forall i :: 0 <= i < |items| ==>
                   Suffices(table, items[i].product, Demand(items, items[i].product)))
  {
    CommitsIffPrefixesCovered(Reserve, table, items);
    forall p, need
      ensures Suffices(table, p, need) <==> p in table && Matches(Reserve, table[p], need)
    {
    }
    assert PrefixesCovered(Reserve, table, items) <==>
      forall i :: 0 <= i < |items| ==> Suffices(table, items[i].product, Demand(items[..i + 1], items[i].product));
    ClosedForm(Reserve, table, items);
  }

  /** No row is oversold: what is reserved is in stock. */
  predicate NoOversell(table: Table) {
    forall p :: p in table ==> 0 <= table[p].reserved <= table[p].stock
  }

  /**
   * Reserving and confirming never turn available stock negative, whatever the signs; neither do
   * releasing and restoring a demand that is not negative. Such demands also keep `0 <= reserved <= stock`.
   */
  lemma TransactionsNeverOversell(act: Activity, table: Table, items: seq<Item>)
    requires RunAll(act, table, items).Some?
    ensures var after := RunAll(act, table, items).value;
      && after.Keys == table.Keys
      && (forall p :: p in table && table[p].stock - table[p].reserved >= 0 &&
                      (act.Reserve? || act.Confirm? || Demand(items, p) >= 0) ==>
            after[p].stock - after[p].reserved >= 0)
      && (NoOversell(table) && (forall p :: p in table ==> Demand(items, p) >= 0) ==> NoOversell(after))
  {
    CommitMovesDemand(act, table, items);
    CommitCovers(act, table, items);
    forall p | p in table
      ensures Demand(items, p) == 0 || Matches(act, table[p], Demand(items, p))
    {
      if i :| 0 <= i < |items| && items[i].product == p {
      } else {
        DemandOfAbsent(items, p);
      }
    }
  }
}
