/** What every reachable state of the shop, and every run of an order, guarantees. */
module Guarantees {
  import opened Common
  import opened Inventory
  import opened Ledger
  import opened Orders
  import opened Saga
  import opened Platform
  import Pay = Payment

  /** Some disciplined interleaving leads from `w` to `w'`. */
  ghost predicate Leads(w: World, w': World) {
    exists actions :: Disciplined(w, actions) && Exec(w, actions) == w'
  }

  ghost predicate Reached(w: World) { Leads(EMPTY_WORLD, w) }

  lemma ReachedInv(w: World)
    requires Reached(w)
    ensures Inv(w)
  {
    var actions :| Disciplined(EMPTY_WORLD, actions) && Exec(EMPTY_WORLD, actions) == w;
    Reachable(actions);
  }

  lemma {:induction false} ExecConcat(w: World, a: seq<Action>, b: seq<Action>)
    ensures Exec(w, a + b) == Exec(Exec(w, a), b)
    ensures Disciplined(w, a + b) <==> Disciplined(w, a) && Disciplined(Exec(w, a), b)
    decreases |a|
  {
    if a == [] {
      assert a + b == b;
    } else {
      assert (a + b)[1..] == a[1..] + b;
      ExecConcat(Step(w, a[0]), a[1..], b);
    }
  }

  lemma LeadsTransitive(w0: World, w1: World, w2: World)
    requires Leads(w0, w1) && Leads(w1, w2)
    ensures Leads(w0, w2)
  {
    var a :| Disciplined(w0, a) && Exec(w0, a) == w1;
    var b :| Disciplined(w1, b) && Exec(w1, b) == w2;
    ExecConcat(w0, a, b);
    assert Disciplined(w0, a + b) && Exec(w0, a + b) == w2;
  }

  lemma NoActionLeads(w: World)
    ensures Leads(w, w)
  {
    assert Exec(w, []) == w && Disciplined(w, []);
  }

  lemma StepLeads(w: World, a: Action)
    requires Fit(w, a)
    ensures Leads(w, Step(w, a))
  {
    var one := [a];
    assert one[1..] == [];
    assert Exec(Step(w, a), []) == Step(w, a) && Disciplined(Step(w, a), []);
    assert Disciplined(w, one) && Exec(w, one) == Step(w, a);
  }

  // ----- the inventory ledger -----

  /** An adjustment moves the stock by exactly its change if the product exists and the stock stays non-negative. */
  lemma AdjustmentStep(w: World, p: int, change: int)
    requires Inv(w)
    ensures
      var l := w.ledger;
      Step(w, AdjustStock(p, change)) ==
      if p in l.table && l.table[p].stock + change >= 0
      then w.(ledger := Ledger(l.table[p := Row(l.table[p].stock + change, l.table[p].reserved)],
                               l.supplied[p := l.supplied[p] + change], l.claims))
      else w
  {
    hide CaseOk, Sound, RowBalanced;
  }

  /** A first stocking opens the product's row; later ones change nothing. */
  lemma InitializationStep(w: World, p: int, quantity: int)
    requires Inv(w)
    ensures
      var l := w.ledger;
      Step(w, InitializeStock(p, quantity)) ==
      if p in l.table then w
      else w.(ledger := Ledger(l.table[p := Row(quantity, 0)], l.supplied[p := quantity], l.claims))
  {
  }

  /** What one action supplies of `p`: its first stocking, or an adjustment that its guard lets through. */
  function Supplies(w: World, a: Action, p: int): int {
    match a
    case InitializeStock(q, quantity) => if q == p && p !in w.ledger.table then quantity else 0
    case AdjustStock(q, change) =>
      if q == p && p in w.ledger.table && w.ledger.table[p].stock + change >= 0 then change else 0
    case _ => 0
  }

  /** Initial stock plus all adjustments that passed, over a whole run. */
  function Supply(w: World, actions: seq<Action>, p: int): int
    decreases |actions|
  {
    if actions == [] then 0 else Supplies(w, actions[0], p) + Supply(Step(w, actions[0]), actions[1..], p)
  }

  function SuppliedOf(w: World, p: int): int { if p in w.ledger.supplied then w.ledger.supplied[p] else 0 }

  lemma SuppliesOneStep(w: World, a: Action, p: int)
    requires Inv(w)
    ensures SuppliedOf(Step(w, a), p) == SuppliedOf(w, p) + Supplies(w, a, p)
  {
    match a
    case AdjustStock(q, change) => AdjustmentStep(w, q, change);
    case InitializeStock(q, quantity) => InitializationStep(w, q, quantity);
    case _ =>
  }

  lemma {:induction false} SupplyAddsUp(w: World, actions: seq<Action>, p: int)
    requires Inv(w) && Disciplined(w, actions)
    ensures SuppliedOf(Exec(w, actions), p) == SuppliedOf(w, p) + Supply(w, actions, p)
    decreases |actions|
  {
    if actions != [] {
      StepKeepsInv(w, actions[0]);
      SuppliesOneStep(w, actions[0], p);
      hide Inv, Step, SuppliedOf, Supplies;
      SupplyAddsUp(Step(w, actions[0]), actions[1..], p);
    }
  }

  /**
   * After every run, each product's reserved quantity is the summed demand of the orders that hold a
   * reservation, and its stock is its initial stock plus all the adjustments that passed, less the
   * summed demand of the orders whose stock was confirmed and not restored.
   */
  lemma LedgerAddsUp(actions: seq<Action>, p: int)
    requires Disciplined(EMPTY_WORLD, actions) && p in Exec(EMPTY_WORLD, actions).ledger.table
    ensures
      var l := Exec(EMPTY_WORLD, actions).ledger;
      && l.table[p].reserved == Outstanding(l.claims, Held, p) >= 0
      && l.table[p].stock == Supply(EMPTY_WORLD, actions, p) - Outstanding(l.claims, Deducted, p)
      && p in l.supplied && l.supplied[p] == Supply(EMPTY_WORLD, actions, p)
  {
    Reachable(actions);
    SupplyAddsUp(EMPTY_WORLD, actions, p);
    var l := Exec(EMPTY_WORLD, actions).ledger;
    assert RowBalanced(l, p);
    ReservedNeverNegative(l, p);
  }

  /**
   * Wherever a workflow is about to confirm, release or restore, the guard passes for every item;
   * no such call was ever refused before. Only infrastructure can stop a compensation.
   */
  lemma StockNeverBlocksWorkflow(w: World, o: nat)
    requires Reached(w) && Known(w, o)
    ensures !w.cases[o].refused
    ensures
      var call := PlaceCall(w.cases[o]);
      call.Some? && call != Some(Reserve) ==>
        RunAll(call.value, w.ledger.table, w.ledger.claims[o].items).Some?
    ensures
      var call := CancelCall(w.cases[o]);
      call.Some? ==> RunAll(call.value, w.ledger.table, w.cases[o].cancel.listing).Some?
  {
    ReachedInv(w);
    var c, claim := w.cases[o], w.ledger.claims[o];
    assert CaseOk(c, claim);
    if PlaceCall(c).Some? {
      PlaceCallFitsHold(c, claim);
      AfterCallBalanced(w.ledger, PlaceCall(c), Delivered, o, claim.items);
    }
    if CancelCall(c).Some? {
      CancelCallFitsHold(c, claim);
      AfterCallBalanced(w.ledger, CancelCall(c), Delivered, o, c.cancel.listing);
    }
  }

  // ----- how a place run ends -----

  /**
   * A run that succeeded has taken exactly its demand out of stock, holds no reservation, and was
   * captured exactly once for its full price, whatever the other orders did.
   */
  lemma PlacedEffect(w: World, o: nat, p: int)
    requires Reached(w) && Known(w, o) && w.cases[o].place.pc == Placed
    requires p in w.ledger.table
    ensures
      var others := Without(w.ledger.claims, o);
      var demand := Demand(ItemsOf(w.cases[o].row.lines), p);
      && p in w.ledger.supplied
      && w.ledger.table[p].stock == w.ledger.supplied[p] - Outstanding(others, Deducted, p) - demand
      && w.ledger.table[p].reserved == Outstanding(others, Held, p)
    ensures
      var c := w.cases[o];
      && Pay.Captured(c.account.books.intents) == Pay.Cents(LinesTotal(c.row.lines))
      && |c.account.books.intents| == 1 && c.account.books.refunds == []
      && c.row.status == SHIPPING && c.shipments > 0
  {
    ReachedInv(w);
    assert CaseOk(w.cases[o], w.ledger.claims[o]);
    OwnEffect(w.ledger, o, p);
    Pay.MoneyInBooks(w.cases[o].account.books, w.cases[o].row.total);
  }

  /** A run whose compensation finished has no effect left on stock, reservations or money. */
  lemma PlaceFailedEffect(w: World, o: nat, p: int)
    requires Reached(w) && Known(w, o) && w.cases[o].place.pc == PlaceFailed
    requires p in w.ledger.table
    ensures
      var others := Without(w.ledger.claims, o);
      && p in w.ledger.supplied
      && w.ledger.table[p].stock == w.ledger.supplied[p] - Outstanding(others, Deducted, p)
      && w.ledger.table[p].reserved == Outstanding(others, Held, p)
    ensures Pay.Kept(w.cases[o].account.books) == 0
    ensures w.cases[o].row.status == PLACE_FAILED
  {
    ReachedInv(w);
    assert CaseOk(w.cases[o], w.ledger.claims[o]);
    OwnEffect(w.ledger, o, p);
    Pay.MoneyInBooks(w.cases[o].account.books, w.cases[o].row.total);
  }

  /** An action about anything else leaves an order and its claim alone. */
  lemma OthersLeaveOrder(w: World, a: Action, o: nat)
    requires Known(w, o) && Subject(a) != Some(o)
    ensures
      var w' := Step(w, a);
      Known(w', o) && w'.cases[o] == w.cases[o] && w'.ledger.claims[o] == w.ledger.claims[o]
  {
  }

  /** No workflow of the order will act on it again, except perhaps to write CANCEL_FAILED. */
  predicate Closed(c: Case) {
    && !PlaceLive(c.place.pc) && !c.row.IsCancelable()
    && (CancelLive(c.cancel.pc) ==> c.cancel.pc == MarkingCancelFailed)
  }

  lemma ClosedStaysOneStep(w: World, a: Action, o: nat)
    requires Inv(w) && Known(w, o) && Closed(w.cases[o])
    ensures
      var w' := Step(w, a);
      && Known(w', o) && Closed(w'.cases[o])
      && w'.cases[o].place == w.cases[o].place && w'.cases[o].shipments == w.cases[o].shipments
      && w'.cases[o].row == w.cases[o].row.(status := w'.cases[o].row.status)
      && (!CancelLive(w.cases[o].cancel.pc) ==>
            w'.cases[o].row == w.cases[o].row && w'.cases[o].cancel == w.cases[o].cancel)
      && w'.ledger.claims[o] == w.ledger.claims[o]
  {
    var c := w.cases[o];
    assert CaseOk(c, w.ledger.claims[o]);
    if Subject(a) != Some(o) {
      OthersLeaveOrder(w, a, o);
    }
  }

  /** Nothing but late payment attempts, and the last status write of a failed cancel, moves a closed order. */
  lemma {:induction false} ClosedIsFinal(w: World, actions: seq<Action>, o: nat)
    requires Inv(w) && Disciplined(w, actions) && Known(w, o) && Closed(w.cases[o])
    ensures
      var w' := Exec(w, actions);
      && Inv(w') && Known(w', o) && Closed(w'.cases[o])
      && w'.cases[o].place == w.cases[o].place && w'.cases[o].shipments == w.cases[o].shipments
      && w'.cases[o].row == w.cases[o].row.(status := w'.cases[o].row.status)
      && (!CancelLive(w.cases[o].cancel.pc) ==>
            w'.cases[o].row == w.cases[o].row && w'.cases[o].cancel == w.cases[o].cancel)
      && w'.ledger.claims[o] == w.ledger.claims[o]
    decreases |actions|
  {
    if actions != [] {
      StepKeepsInv(w, actions[0]);
      ClosedStaysOneStep(w, actions[0], o);
      hide Inv, Step;
      ClosedIsFinal(Step(w, actions[0]), actions[1..], o);
    }
  }

  lemma EndedCaseMoney(c: Case, claim: Claim)
    requires CaseOk(c, claim)
    ensures c.place.pc == Placed ==> Pay.Kept(c.account.books) == Pay.Cents(c.row.total)
    ensures c.place.pc == PlaceFailed ==> Pay.Kept(c.account.books) == 0
  {
    Pay.MoneyInBooks(c.account.books, c.row.total);
  }

  /** Both ends are final: no later step, late payment attempt or cancel request moves the order. */
  lemma EndsAreFinal(w: World, actions: seq<Action>, o: nat)
    requires Inv(w) && Disciplined(w, actions) && Known(w, o)
    requires w.cases[o].place.pc.Placed? || w.cases[o].place.pc.PlaceFailed?
    ensures
      var w' := Exec(w, actions);
      && Inv(w') && Known(w', o) && w'.cases[o].place == w.cases[o].place
      && w'.cases[o].row == w.cases[o].row && w'.ledger.claims[o] == w.ledger.claims[o]
      && Pay.Kept(w'.cases[o].account.books) ==
           (if w.cases[o].place.pc == Placed then Pay.Cents(w'.cases[o].row.total) else 0)
  {
    assert CaseOk(w.cases[o], w.ledger.claims[o]);
    ClosedIsFinal(w, actions, o);
    var w' := Exec(w, actions);
    assert CaseOk(w'.cases[o], w'.ledger.claims[o]);
    EndedCaseMoney(w'.cases[o], w'.ledger.claims[o]);
  }

  // ----- orders that nobody works on -----

  /** Created, but no workflow learned of it: PENDING, holding nothing, never charged. */
  predicate Orphan(w: World, o: nat, items: seq<Item>) {
    && Known(w, o) && w.ledger.claims[o] == Claim(items, Free)
    && var c := w.cases[o];
       && c.row.status == PENDING && c.row.paymentId.None? && ItemsOf(c.row.lines) == items
       && c.place == PlaceRun(Abandoned, false, false, false, None, None) && c.cancel.pc == Idle
       && c.account == Pay.Account(Pay.EMPTY_BOOKS, []) && c.shipments == 0
  }

  lemma OrphanStaysOneStep(w: World, a: Action, o: nat, items: seq<Item>)
    requires Orphan(w, o, items) && Fit(w, a)
    ensures Orphan(Step(w, a), o, items)
  {
    if Subject(a) != Some(o) {
      OthersLeaveOrder(w, a, o);
    }
  }

  /** An order whose creation was not acknowledged stays what it is, in every continuation. */
  lemma OrphanIsForGood(w: World, w': World, o: nat, items: seq<Item>)
    requires Orphan(w, o, items) && Leads(w, w')
    ensures Orphan(w', o, items)
  {
    var actions :| Disciplined(w, actions) && Exec(w, actions) == w';
    OrphanStays(w, actions, o, items);
  }

  lemma {:induction false} OrphanStays(w: World, actions: seq<Action>, o: nat, items: seq<Item>)
    requires Orphan(w, o, items) && Disciplined(w, actions)
    ensures Orphan(Exec(w, actions), o, items)
    decreases |actions|
  {
    if actions != [] {
      OrphanStaysOneStep(w, actions[0], o, items);
      OrphanStays(Step(w, actions[0]), actions[1..], o, items);
    }
  }

  // ----- what the status says -----

  /** PLACE_FAILED is only ever written after the stock and the money went back. */
  lemma PlaceFailedMeansUndone(w: World, o: nat)
    requires Reached(w) && Known(w, o) && w.cases[o].row.status == PLACE_FAILED
    ensures w.ledger.claims[o].hold == Free
    ensures Pay.Kept(w.cases[o].account.books) == 0
  {
    ReachedInv(w);
    assert CaseOk(w.cases[o], w.ledger.claims[o]);
    Pay.MoneyInBooks(w.cases[o].account.books, w.cases[o].row.total);
  }

  /** A finished place or cancel run leaves a status that `cancelOrder` refuses. */
  lemma CancelRefusedAfterEnd(w: World, o: nat)
    requires Reached(w) && Known(w, o)
    requires
      || w.cases[o].place.pc.Placed? || w.cases[o].place.pc.PlaceFailed?
      || w.cases[o].cancel.pc.Cancelled? || w.cases[o].cancel.pc.CancelFailed?
    ensures Step(w, StartCancel(o)) == w
  {
    ReachedInv(w);
    assert CaseOk(w.cases[o], w.ledger.claims[o]);
  }

  // ----- cancelling -----

  /**
   * Cancelling gives back, for any listing of the items, exactly what the order took if and only if
   * the payment id was saved exactly when the stock was confirmed; otherwise some row is left wrong.
   */
  lemma CancelUndoesIff(w: World, o: nat, listing: seq<Item>, p: int)
    requires Reached(w) && Known(w, o) && p in w.ledger.table
    requires multiset(listing) == multiset(ItemsOf(w.cases[o].row.lines))
    requires Demand(listing, p) > 0
    requires RunAll(CancelActivity(w.cases[o].row.paymentId), w.ledger.table, listing).Some?
    ensures
      var l := CallWith(w.ledger, CancelActivity(w.cases[o].row.paymentId), o, listing);
      && p in l.table && p in l.supplied
      && (RowBalanced(l, p) <==> CancelFits(w.ledger.claims[o].hold, w.cases[o].row.paymentId))
      && l.claims[o].hold == Free
  {
    ReachedInv(w);
    var act := CancelActivity(w.cases[o].row.paymentId);
    assert CaseOk(w.cases[o], w.ledger.claims[o]);
    assert Sound(w.ledger, w.ledger.claims[o]);
    OrderIndependent(act, w.ledger.table, w.ledger.claims[o].items, listing);
    DemandOfPermutation(listing, w.ledger.claims[o].items, p);
    WrongHoldBreaksBalance(w.ledger, act, o, p);
  }

  // ----- payment, seen from the workflows -----

  /** No attempt that a workflow starts ever fails for want of the amount. */
  lemma AmountNeverMissing(w: World, o: nat, k: nat)
    requires Reached(w) && Known(w, o) && k < |w.cases[o].account.attempts|
    ensures w.cases[o].account.attempts[k] != Pay.Threw(Pay.AmountMissing)
    ensures w.cases[o].row.paymentId.Some? ==> w.cases[o].account.books.rows != []
    ensures w.cases[o].place.attempted ==> w.cases[o].place.total == Some(w.cases[o].row.total)
  {
    ReachedInv(w);
    assert CaseOk(w.cases[o], w.ledger.claims[o]);
    assert Pay.AmountKnown(w.cases[o].account.books, w.cases[o].account.attempts[k]);
  }

  /** Stripe is only ever asked for 100 times the stored lines' total, by the charge and by the probe. */
  lemma StripeAmount(w: World, o: nat, k: nat)
    requires Reached(w) && Known(w, o)
    ensures
      var c := w.cases[o];
      var cents := 100 * LinesTotal(c.row.lines);
      && (forall i :: 0 <= i < |c.account.books.intents| ==> c.account.books.intents[i].amount == cents)
      && (k < |c.account.attempts| && (c.account.attempts[k].ChargeCall? || c.account.attempts[k].RefundProbe?) ==>
            Pay.Cents(c.account.attempts[k].amount) == cents)
  {
    ReachedInv(w);
    var c := w.cases[o];
    assert CaseOk(c, w.ledger.claims[o]);
    if k < |c.account.attempts| {
      assert Pay.AttemptOk(c.account.books, c.account.attempts[k], c.row.total);
    }
  }

  /** What an order was created with never changes, and its books never lose what is on record. */
  lemma {:induction false} HistoryIsKept(w: World, actions: seq<Action>, o: nat)
    requires Inv(w) && Disciplined(w, actions) && Known(w, o)
    ensures
      var w' := Exec(w, actions);
      && Inv(w') && Known(w', o)
      && w'.cases[o].row.lines == w.cases[o].row.lines && w'.cases[o].row.total == w.cases[o].row.total
      && (w.cases[o].place.attempted ==> w'.cases[o].place.attempted)
      && (w.cases[o].row.paymentId.Some? ==> w'.cases[o].row.paymentId == w.cases[o].row.paymentId)
      && Pay.Grows(w.cases[o].account.books, w'.cases[o].account.books)
    decreases |actions|
  {
    if actions != [] {
      StepKeepsInv(w, actions[0]);
      HistoryIsKeptOneStep(w, actions[0], o);
      HistoryIsKept(Step(w, actions[0]), actions[1..], o);
    }
  }

  lemma HistoryIsKeptOneStep(w: World, a: Action, o: nat)
    requires Inv(w) && Fit(w, a) && Known(w, o)
    ensures
      var w' := Step(w, a);
      && Known(w', o)
      && w'.cases[o].row.lines == w.cases[o].row.lines && w'.cases[o].row.total == w.cases[o].row.total
      && (w.cases[o].place.attempted ==> w'.cases[o].place.attempted)
      && (w.cases[o].row.paymentId.Some? ==> w'.cases[o].row.paymentId == w.cases[o].row.paymentId)
      && Pay.Grows(w.cases[o].account.books, w'.cases[o].account.books)
  {
    var c := w.cases[o];
    assert CaseOk(c, w.ledger.claims[o]);
    hide Inv, FlagsOk, StatusOk, CancelOk, Pay.BooksOk, Pay.AttemptOk, AfterCall;
    if Subject(a) != Some(o) {
      OthersLeaveOrder(w, a, o);
    } else {
      match a
      case PlaceNext(_, net, via) =>
        PlaceStepKeeps(c, net, via, Granted(w.ledger, PlaceCall(c), net, w.ledger.claims[o].items));
      case CancelNext(_, net, via, listing) =>
        CancelStepKeeps(c, net, via, Granted(w.ledger, CancelCall(c), net, c.cancel.listing), listing);
      case StartAttempt(_, attempt) => Pay.AccountStepOk(c.account, Pay.Start(attempt), c.row.total);
      case AdvanceAttempt(_, k, luck) => Pay.AccountStepOk(c.account, Pay.Advance(k, luck), c.row.total);
      case _ =>
    }
  }

  // ----- overselling -----

  /** Available stock only turns negative through a stock adjustment. */
  lemma OnlyAdjustmentsOversell(w: World, a: Action, p: int)
    requires Reached(w) && p in w.ledger.table
    requires w.ledger.table[p].stock - w.ledger.table[p].reserved >= 0
    ensures p in Step(w, a).ledger.table
    ensures var row := Step(w, a).ledger.table[p];
      row.stock - row.reserved < 0 ==> a.AdjustStock? && a.product == p && a.change < 0
  {
    ReachedInv(w);
    if a.PlaceNext? || a.CancelNext? {
      CallKeepsAvailable(w, a);
    }
  }

  lemma CallKeepsAvailable(w: World, a: Action)
    requires Inv(w) && (a.PlaceNext? || a.CancelNext?)
    ensures
      var t, t' := w.ledger.table, Step(w, a).ledger.table;
      && t'.Keys == t.Keys
      && (forall p :: p in t && t[p].stock - t[p].reserved >= 0 ==> t'[p].stock - t'[p].reserved >= 0)
      && (NoOversell(t) ==> NoOversell(t'))
  {
    if Known(w, a.o) {
      var c, claim := w.cases[a.o], w.ledger.claims[a.o];
      assert Sound(w.ledger, claim) && CaseOk(c, claim);
      var call := if a.PlaceNext? then PlaceCall(c) else CancelCall(c);
      var items := if a.PlaceNext? then claim.items else c.cancel.listing;
      if Granted(w.ledger, call, a.net, items) {
        if a.CancelNext? {
          CancelCallFitsHold(c, claim);
          PermutationKeepsLines(claim.items, items);
        }
        forall p ensures Demand(items, p) >= 0 {
          DemandNonNegative(items, p);
        }
        TransactionsNeverOversell(call.value, w.ledger.table, items);
      }
    }
  }

  /** Adjustments that never go below what is reserved, and stock that starts non-negative. */
  predicate FairSupply(w: World, a: Action) {
    match a
    case AdjustStock(p, d) => p in w.ledger.table ==> w.ledger.table[p].stock + d >= w.ledger.table[p].reserved
    case InitializeStock(_, q) => q >= 0
    case _ => true
  }

  predicate FairlySupplied(w: World, actions: seq<Action>)
    decreases |actions|
  {
    actions == [] || (FairSupply(w, actions[0]) && FairlySupplied(Step(w, actions[0]), actions[1..]))
  }

  /** With fair supply, `0 <= reserved <= stock` holds for every product in every state of every run. */
  lemma {:induction false} NeverOversold(w: World, actions: seq<Action>)
    requires Inv(w) && NoOversell(w.ledger.table)
    requires Disciplined(w, actions) && FairlySupplied(w, actions)
    ensures NoOversell(Exec(w, actions).ledger.table)
    decreases |actions|
  {
    if actions != [] {
      var a := actions[0];
      StepKeepsInv(w, a);
      if a.PlaceNext? || a.CancelNext? {
        CallKeepsAvailable(w, a);
      }
      NeverOversold(Step(w, a), actions[1..]);
    }
  }
}
