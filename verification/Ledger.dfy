/**
 * The inventory table together with what each order holds of it. `supplied` and `claims`
 * are history: the source keeps no record of who holds what, which is why its activities
 * can only be right if the table always adds up to the claims.
 */
module Ledger {
  import opened Common
  import opened Inventory

  /** What an order has taken and not given back. */
  datatype Hold =
    | Free
    | Held      // reserved: counted in `reserved`
    | Deducted  // confirmed: gone from `stock`

  datatype Claim = Claim(items: seq<Item>, hold: Hold)

  /** `supplied` is, per product, the initial stock plus every successful adjustment. */
  datatype Ledger = Ledger(table: Table, supplied: map<int, int>, claims: seq<Claim>)

  /** The hold an order must have when an activity is called for it, and the one it gets. */
  function Before(act: Activity): Hold {
    match act
    case Reserve => Free
    case Confirm => Held
    case Release => Held
    case Restore => Deducted
  }

  function After(act: Activity): Hold {
    match act
    case Reserve => Held
    case Confirm => Deducted
    case Release => Free
    case Restore => Free
  }

  function Share(claim: Claim, hold: Hold, product: int): int {
    if claim.hold == hold then Demand(claim.items, product) else 0
  }

  /** Summed demand for `product` of all the orders whose hold is `hold`. */
  function Outstanding(claims: seq<Claim>, hold: Hold, product: int): int {
    if claims == [] then 0
    else Outstanding(claims[..|claims| - 1], hold, product) + Share(claims[|claims| - 1], hold, product)
  }

  predicate Sound(l: Ledger, claim: Claim) {
    && NonNegative(claim.items)
    && (claim.hold != Free ==> Inventory.Stocked(l.table, claim.items))
  }

  predicate RowBalanced(l: Ledger, p: int)
    requires p in l.table && p in l.supplied
  {
    && l.table[p].reserved == Outstanding(l.claims, Held, p)
    && l.table[p].stock + Outstanding(l.claims, Deducted, p) == l.supplied[p]
  }

  /** The table adds up to the claims, product by product. */
  ghost predicate Balanced(l: Ledger) {
    && l.table.Keys == l.supplied.Keys
    && (forall o :: 0 <= o < |l.claims| ==> Sound(l, l.claims[o]))
    && (forall p :: p in l.table ==> RowBalanced(l, p))
  }

  // ----- the moves -----

  /** One call of an inventory activity for order `o`: a refused call changes nothing. */
  function CallWith(l: Ledger, act: Activity, o: nat, items: seq<Item>): Ledger
    requires o < |l.claims|
  {
    var result := RunAll(act, l.table, items);
    if result.None? then l
    else l.(table := result.value, claims := l.claims[o := l.claims[o].(hold := After(act))])
  }

  function Call(l: Ledger, act: Activity, o: nat): Ledger
    requires o < |l.claims|
  {
    CallWith(l, act, o, l.claims[o].items)
  }

  function Open(l: Ledger, items: seq<Item>): Ledger {
    l.(claims := l.claims + [Claim(items, Free)])
  }

  function Adjust(l: Ledger, product: int, change: int): Ledger {
    var result := Adjusted(l.table, product, change);
    if result.None? || product !in l.supplied then l
    else l.(table := result.value, supplied := l.supplied[product := l.supplied[product] + change])
  }

  /** `initializeInventory` for a product that has no row yet (`product_id` is unique). */
  function Initialize(l: Ledger, product: int, quantity: int): Ledger {
    if product in l.table then l
    else l.(table := l.table[product := Row(quantity, 0)], supplied := l.supplied[product := quantity])
  }

  // ----- sums over the claims -----

  lemma {:induction false} OutstandingAfterChange(claims: seq<Claim>, o: nat, c: Claim, hold: Hold, p: int)
    requires o < |claims|
    ensures Outstanding(claims[o := c], hold, p) ==
              Outstanding(claims, hold, p) - Share(claims[o], hold, p) + Share(c, hold, p)
  {
    var last := |claims| - 1;
    if o == last {
      assert claims[o := c][..last] == claims[..last];
    } else {
      assert claims[o := c][..last] == claims[..last][o := c];
      OutstandingAfterChange(claims[..last], o, c, hold, p);
    }
  }

  lemma {:induction false} ShareAtMostOutstanding(claims: seq<Claim>, o: nat, hold: Hold, p: int)
    requires o < |claims|
    requires forall i :: 0 <= i < |claims| ==> NonNegative(claims[i].items)
    ensures 0 <= Share(claims[o], hold, p) <= Outstanding(claims, hold, p)
  {
    var last := |claims| - 1;
    DemandNonNegative(claims[o].items, p);
    if o == last {
      OutstandingNonNegative(claims[..last], hold, p);
    } else {
      DemandNonNegative(claims[last].items, p);
      ShareAtMostOutstanding(claims[..last], o, hold, p);
    }
  }

  lemma {:induction false} OutstandingNonNegative(claims: seq<Claim>, hold: Hold, p: int)
    requires forall i :: 0 <= i < |claims| ==> NonNegative(claims[i].items)
    ensures Outstanding(claims, hold, p) >= 0
  {
    if claims != [] {
      DemandNonNegative(claims[|claims| - 1].items, p);
      OutstandingNonNegative(claims[..|claims| - 1], hold, p);
    }
  }

  lemma {:induction false} NothingOutstanding(claims: seq<Claim>, hold: Hold, p: int)
    requires forall o :: 0 <= o < |claims| ==> Share(claims[o], hold, p) == 0
    ensures Outstanding(claims, hold, p) == 0
  {
    if claims != [] {
      NothingOutstanding(claims[..|claims| - 1], hold, p);
    }
  }

  // ----- balance is kept -----

  /** Every call made for an order with the hold it needs keeps the table equal to the claims. */
  lemma CallKeepsBalance(l: Ledger, act: Activity, o: nat)
    requires Balanced(l) && o < |l.claims| && l.claims[o].hold == Before(act)
    ensures Balanced(Call(l, act, o))
  {
    var claim := l.claims[o];
    var l' := Call(l, act, o);
    ClosedForm(act, l.table, claim.items);
    if RunAll(act, l.table, claim.items).Some? {
      assert l'.table.Keys == l.table.Keys;
      forall i | 0 <= i < |l'.claims| ensures Sound(l', l'.claims[i]) {
        assert Sound(l, l.claims[i]);
      }
      forall p | p in l'.table ensures RowBalanced(l', p) {
        assert RowBalanced(l, p);
        OutstandingAfterChange(l.claims, o, l'.claims[o], Held, p);
        OutstandingAfterChange(l.claims, o, l'.claims[o], Deducted, p);
      }
    }
  }

  /** A new order claims nothing yet; it fits into the books exactly when no quantity is negative. */
  lemma OpenKeepsBalance(l: Ledger, items: seq<Item>)
    requires Balanced(l)
    ensures forall p :: p in Open(l, items).table ==> RowBalanced(Open(l, items), p)
    ensures Balanced(Open(l, items)) <==> NonNegative(items)
  {
    var l' := Open(l, items);
    assert l'.claims[|l.claims|] == Claim(items, Free);
    forall i | 0 <= i < |l.claims| ensures Sound(l', l'.claims[i]) {
      assert Sound(l, l.claims[i]);
    }
    assert l'.claims[..|l'.claims| - 1] == l.claims;
    forall p | p in l'.table ensures RowBalanced(l', p) {
      assert RowBalanced(l, p);
    }
  }

  lemma AdjustKeepsBalance(l: Ledger, product: int, change: int)
    requires Balanced(l)
    ensures Balanced(Adjust(l, product, change))
    ensures Adjust(l, product, change) ==
            if product in l.table && l.table[product].stock + change >= 0
            then Ledger(l.table[product := Row(l.table[product].stock + change, l.table[product].reserved)],
                        l.supplied[product := l.supplied[product] + change], l.claims)
            else l
  {
    var l' := Adjust(l, product, change);
    assert l'.table.Keys == l.table.Keys == l'.supplied.Keys;
    forall i | 0 <= i < |l'.claims| ensures Sound(l', l'.claims[i]) {
      assert Sound(l, l.claims[i]);
    }
    forall p | p in l'.table ensures RowBalanced(l', p) {
      assert RowBalanced(l, p);
    }
  }

  lemma InitializeKeepsBalance(l: Ledger, product: int, quantity: int)
    requires Balanced(l)
    ensures Balanced(Initialize(l, product, quantity))
  {
    var l' := Initialize(l, product, quantity);
    forall i | 0 <= i < |l'.claims| ensures Sound(l', l'.claims[i]) {
      assert Sound(l, l.claims[i]);
    }
    if product !in l.table {
      forall o, hold | 0 <= o < |l.claims| && hold != Free ensures Share(l.claims[o], hold, product) == 0 {
        if l.claims[o].hold == hold {
          assert Sound(l, l.claims[o]);
          DemandOfAbsent(l.claims[o].items, product);
        }
      }
      NothingOutstanding(l.claims, Held, product);
      NothingOutstanding(l.claims, Deducted, product);
    }
    forall p | p in l'.table ensures RowBalanced(l', p) {
      if p in l.table {
        assert RowBalanced(l, p);
      }
    }
  }

  // ----- what balance gives -----

  /**
   * Confirming, releasing or restoring for an order that holds what it should is never
   * refused, whatever every other order and every adjustment did before.
   */
  lemma NeverRefused(l: Ledger, act: Activity, o: nat)
    requires Balanced(l) && o < |l.claims| && l.claims[o].hold == Before(act) && act != Reserve
    ensures RunAll(act, l.table, l.claims[o].items).Some?
  {
    var claim := l.claims[o];
    assert Sound(l, claim);
    ClosedForm(act, l.table, claim.items);
    forall i | 0 <= i < |claim.items|
      ensures claim.items[i].product in l.table
      ensures Matches(act, l.table[claim.items[i].product], Demand(claim.items, claim.items[i].product))
    {
      var p := claim.items[i].product;
      assert RowBalanced(l, p);
      forall k | 0 <= k < |l.claims| ensures NonNegative(l.claims[k].items) {
        assert Sound(l, l.claims[k]);
      }
      ShareAtMostOutstanding(l.claims, o, Held, p);
    }
  }

  /** The claims with order `o` holding nothing. */
  function Without(claims: seq<Claim>, o: nat): seq<Claim>
    requires o < |claims|
  {
    claims[o := claims[o].(hold := Free)]
  }

  /** The table is what the others make it, plus exactly order `o`'s own demand where it holds some. */
  lemma OwnEffect(l: Ledger, o: nat, p: int)
    requires Balanced(l) && o < |l.claims| && p in l.table
    ensures l.table[p].reserved ==
              Outstanding(Without(l.claims, o), Held, p) +
              (if l.claims[o].hold == Held then Demand(l.claims[o].items, p) else 0)
    ensures l.table[p].stock ==
              l.supplied[p] - Outstanding(Without(l.claims, o), Deducted, p) -
              (if l.claims[o].hold == Deducted then Demand(l.claims[o].items, p) else 0)
  {
    assert RowBalanced(l, p);
    OutstandingAfterChange(l.claims, o, l.claims[o].(hold := Free), Held, p);
    OutstandingAfterChange(l.claims, o, l.claims[o].(hold := Free), Deducted, p);
  }

  lemma ReservedNeverNegative(l: Ledger, p: int)
    requires Balanced(l) && p in l.table
    ensures l.table[p].reserved >= 0
  {
    assert RowBalanced(l, p);
    forall k | 0 <= k < |l.claims| ensures NonNegative(l.claims[k].items) {
      assert Sound(l, l.claims[k]);
    }
    OutstandingNonNegative(l.claims, Held, p);
  }

  /**
   * Giving back for an order what it does not hold breaks the balance: a transaction that
   * commits with any other hold than the activity's own leaves some row that does not add up.
   */
  lemma WrongHoldBreaksBalance(l: Ledger, act: Activity, o: nat, p: int)
    requires Balanced(l) && o < |l.claims| && p in l.table
    requires RunAll(act, l.table, l.claims[o].items).Some?
    requires Demand(l.claims[o].items, p) > 0
    ensures p in Call(l, act, o).table && p in Call(l, act, o).supplied
    ensures RowBalanced(Call(l, act, o), p) <==> l.claims[o].hold == Before(act)
  {
    var claim := l.claims[o];
    var l' := Call(l, act, o);
    assert Sound(l, claim) && RowBalanced(l, p);
    ClosedForm(act, l.table, claim.items);
    OutstandingAfterChange(l.claims, o, l'.claims[o], Held, p);
    OutstandingAfterChange(l.claims, o, l'.claims[o], Deducted, p);
  }
}
