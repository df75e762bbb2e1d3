/**
 * What can still become of an order: which ends some continuation reaches, and which facts every
 * continuation keeps. Each question has an exact answer that can be read off the present state.
 */
module Outcomes {
  import opened Common
  import opened Inventory
  import opened Ledger
  import opened Orders
  import opened Saga
  import opened Platform
  import opened Guarantees
  import Pay = Payment

  lemma LeadsKeeps(w: World, w': World, o: nat)
    requires Inv(w) && Known(w, o) && Leads(w, w')
    ensures Inv(w') && Known(w', o)
    ensures Pay.Grows(w.cases[o].account.books, w'.cases[o].account.books)
    ensures w'.cases[o].row.total == w.cases[o].row.total
    ensures w.cases[o].place.attempted ==> w'.cases[o].place.attempted
    ensures w.cases[o].row.paymentId.Some? ==> w'.cases[o].row.paymentId == w.cases[o].row.paymentId
  {
    var actions :| Disciplined(w, actions) && Exec(w, actions) == w';
    HistoryIsKept(w, actions, o);
  }

  lemma ClosedStays(w: World, w': World, o: nat)
    requires Inv(w) && Known(w, o) && Closed(w.cases[o]) && Leads(w, w')
    ensures Inv(w') && Known(w', o)
    ensures w'.cases[o].place == w.cases[o].place && w'.cases[o].shipments == w.cases[o].shipments
    ensures w'.cases[o].row.paymentId == w.cases[o].row.paymentId && w'.ledger.claims[o] == w.ledger.claims[o]
    ensures !CancelLive(w.cases[o].cancel.pc) ==> w'.cases[o].row == w.cases[o].row
  {
    var actions :| Disciplined(w, actions) && Exec(w, actions) == w';
    ClosedIsFinal(w, actions, o);
  }

  lemma LeadsInv(w: World, w': World)
    requires Inv(w) && Leads(w, w')
    ensures Inv(w')
  {
    var actions :| Disciplined(w, actions) && Exec(w, actions) == w';
    ExecKeepsInv(w, actions);
  }

  // ----- making things happen to one order -----

  /** A step of the order's place run, or of its payment attempts. */
  predicate PlaceSide(a: Action, o: nat) { (a.PlaceNext? || a.StartAttempt? || a.AdvanceAttempt?) && a.o == o }

  /** Such steps alone lead from `w` to `w'`. */
  ghost predicate PlaceSideLeads(w: World, w': World, o: nat) {
    exists actions :: (forall i :: 0 <= i < |actions| ==> PlaceSide(actions[i], o)) && Exec(w, actions) == w'
  }

  lemma {:induction false} PlaceSideDisciplined(w: World, actions: seq<Action>, o: nat)
    requires forall i :: 0 <= i < |actions| ==> PlaceSide(actions[i], o)
    ensures Disciplined(w, actions)
    decreases |actions|
  {
    if actions != [] {
      PlaceSideDisciplined(Step(w, actions[0]), actions[1..], o);
    }
  }

  lemma PlaceSideIsLeads(w: World, w': World, o: nat)
    requires PlaceSideLeads(w, w', o)
    ensures Leads(w, w')
  {
    var actions :| (forall i :: 0 <= i < |actions| ==> PlaceSide(actions[i], o)) && Exec(w, actions) == w';
    PlaceSideDisciplined(w, actions, o);
  }

  lemma NoStepLeads(w: World, o: nat)
    ensures PlaceSideLeads(w, w, o) && Leads(w, w)
  {
    var none: seq<Action> := [];
    assert Exec(w, none) == w;
    PlaceSideIsLeads(w, w, o);
  }

  lemma OneStepLeads(w: World, a: Action, o: nat)
    requires PlaceSide(a, o)
    ensures PlaceSideLeads(w, Step(w, a), o) && Leads(w, Step(w, a))
  {
    var one := [a];
    assert one[1..] == [];
    assert Exec(Step(w, a), []) == Step(w, a);
    assert Exec(w, one) == Step(w, a);
    PlaceSideIsLeads(w, Step(w, a), o);
  }

  lemma ThenLeads(w0: World, w1: World, w2: World, o: nat)
    requires PlaceSideLeads(w0, w1, o) && PlaceSideLeads(w1, w2, o)
    ensures PlaceSideLeads(w0, w2, o) && Leads(w0, w2)
  {
    var a :| (forall i :: 0 <= i < |a| ==> PlaceSide(a[i], o)) && Exec(w0, a) == w1;
    var b :| (forall i :: 0 <= i < |b| ==> PlaceSide(b[i], o)) && Exec(w1, b) == w2;
    ExecConcat(w0, a, b);
    assert Exec(w0, a + b) == w2;
    PlaceSideIsLeads(w0, w2, o);
  }

  function WithAccount(w: World, o: nat, account: Pay.Account): World
    requires o < |w.cases|
  {
    w.(cases := w.cases[o := w.cases[o].(account := account)])
  }

  lemma PaymentLeads(w: World, o: nat, e: Pay.Event)
    requires Known(w, o) && (e.Start? ==> MayStart(w.cases[o], e.attempt))
    ensures
      var w' := WithAccount(w, o, Pay.AccountStep(w.cases[o].account, e, w.cases[o].row.total));
      PlaceSideLeads(w, w', o)
  {
    var a :=
      match e
      case Start(attempt) => StartAttempt(o, attempt)
      case Advance(k, luck) => AdvanceAttempt(o, k, luck);
    OneStepLeads(w, a, o);
  }

  lemma MayStartStays(c: Case, account: Pay.Account)
    ensures forall a :: MayStart(c, a) ==> MayStart(c.(account := account), a)
  {
  }

  /** Any attempts that the workflows may start can run, one step after the other. */
  lemma {:induction false} PaymentsLead(w: World, o: nat, events: seq<Pay.Event>)
    requires Known(w, o)
    requires forall i :: 0 <= i < |events| && events[i].Start? ==> MayStart(w.cases[o], events[i].attempt)
    ensures
      var w' := WithAccount(w, o, Pay.AccountRun(w.cases[o].account, events, w.cases[o].row.total));
      PlaceSideLeads(w, w', o) && Leads(w, w') && (Inv(w) ==> Inv(w'))
    decreases |events|
  {
    hide Inv, Leads, Step, PlaceSideLeads, Pay.AccountStep, MayStart;
    var c := w.cases[o];
    var w' := WithAccount(w, o, Pay.AccountRun(c.account, events, c.row.total));
    if events == [] {
      assert w.cases[o := c] == w.cases;
      NoStepLeads(w, o);
    } else {
      var e := events[0];
      var account := Pay.AccountStep(c.account, e, c.row.total);
      var w1 := WithAccount(w, o, account);
      PaymentLeads(w, o, e);
      MayStartStays(c, account);
      PaymentsLead(w1, o, events[1..]);
      var end := Pay.AccountRun(account, events[1..], c.row.total);
      assert w.cases[o := w1.cases[o]][o := c.(account := end)] == w.cases[o := c.(account := end)];
      ThenLeads(w, w1, w', o);
    }
    if Inv(w) {
      LeadsInv(w, w');
    }
  }

  /** One step of the place workflow; confirm, release and restore are granted. */
  lemma PlaceLeads(w: World, o: nat, net: Net, via: nat) returns (w': World)
    requires Inv(w) && Known(w, o)
    ensures w' == Step(w, PlaceNext(o, net, via)) && Inv(w') && Known(w', o)
    ensures PlaceSideLeads(w, w', o) && Leads(w, w')
    ensures
      var c := w.cases[o];
      PlaceCall(c) != Some(Reserve) || net != Delivered ==>
        && w'.cases[o] == PlaceStep(c, net, via, PlaceCall(c).Some? && net == Delivered)
        && w'.ledger.claims[o] == ClaimAfter(w.ledger.claims[o], PlaceCall(c), net, true)
  {
    var a := PlaceNext(o, net, via);
    OneStepLeads(w, a, o);
    StepKeepsInv(w, a);
    w' := Step(w, a);
    var c, claim := w.cases[o], w.ledger.claims[o];
    assert CaseOk(c, claim);
    if PlaceCall(c).Some? {
      PlaceCallFitsHold(c, claim);
    }
    AfterCallBalanced(w.ledger, PlaceCall(c), net, o, claim.items);
  }

  /** One delivered step of the cancel workflow. */
  lemma CancelLeads(w: World, o: nat, via: nat, listing: seq<Item>) returns (w': World)
    requires Inv(w) && Known(w, o)
    ensures w' == Step(w, CancelNext(o, Delivered, via, listing)) && Leads(w, w') && Inv(w') && Known(w', o)
    ensures w'.cases[o] == CancelStep(w.cases[o], Delivered, via, CancelCall(w.cases[o]).Some?, listing)
  {
    var a := CancelNext(o, Delivered, via, listing);
    StepLeads(w, a);
    StepKeepsInv(w, a);
    w' := Step(w, a);
    var c, claim := w.cases[o], w.ledger.claims[o];
    assert CaseOk(c, claim);
    if CancelCall(c).Some? {
      CancelCallFitsHold(c, claim);
    }
    AfterCallBalanced(w.ledger, CancelCall(c), Delivered, o, c.cancel.listing);
  }

  /** Neither idempotency key replays a refusal. */
  predicate RefundOpen(b: Pay.Books) { !Pay.ChargeRefused(b) && !Pay.RefundRefused(b) }

  /** A new refund attempt runs through. */
  lemma RefundLeads(w: World, o: nat, known: Option<int>) returns (w': World, via: nat)
    requires Inv(w) && Known(w, o) && RefundOpen(w.cases[o].account.books)
    requires MayStart(w.cases[o], Pay.RefundLookup(known))
    requires known.None? ==> w.cases[o].account.books.rows != []
    ensures PlaceSideLeads(w, w', o) && Leads(w, w') && Inv(w') && Known(w', o) && w'.ledger == w.ledger
    ensures w'.cases[o] == w.cases[o].(account := w'.cases[o].account)
    ensures Refunded(w'.cases[o], via) && Pay.Settled(w'.cases[o].account.books)
  {
    var c := w.cases[o];
    assert CaseOk(c, w.ledger.claims[o]);
    var events := Pay.SmoothAttempt(c.account, Pay.RefundLookup(known), 4);
    Pay.SmoothRefundRun(c.account, known, c.row.total);
    PaymentsLead(w, o, events);
    w', via := WithAccount(w, o, Pay.AccountRun(c.account, events, c.row.total)), |c.account.attempts|;
    assert Pay.AttemptOk(w'.cases[o].account.books, w'.cases[o].account.attempts[via], c.row.total);
  }

  // ----- rolling back -----

  predicate Compensating(pc: PlacePc) { pc.Refunding? || pc.Undoing? || pc.MarkingFailed? }

  /** The refund of the compensation returns. */
  lemma RefundingLeads(w: World, o: nat) returns (w': World)
    requires Inv(w) && Known(w, o)
    requires w.cases[o].place.pc == Refunding && RefundOpen(w.cases[o].account.books)
    ensures PlaceSideLeads(w, w', o) && Leads(w, w') && Inv(w') && Known(w', o)
    ensures w'.cases[o].place.pc == Undoing && w'.cases[o].row == w.cases[o].row
  {
    assert MayStart(w.cases[o], Pay.RefundLookup(w.cases[o].place.total));
    assert w.cases[o].place.total.Some? by {
      assert CaseOk(w.cases[o], w.ledger.claims[o]);
    }
    hide Inv, Leads, PlaceSideLeads, Step, RefundOpen, Pay.Settled, ClaimAfter;
    var w1, via := RefundLeads(w, o, w.cases[o].place.total);
    w' := PlaceLeads(w1, o, Delivered, via);
    ThenLeads(w, w1, w', o);
  }

  /** The stock goes back. */
  lemma UndoingLeads(w: World, o: nat) returns (w': World)
    requires Inv(w) && Known(w, o) && w.cases[o].place.pc == Undoing
    ensures PlaceSideLeads(w, w', o) && Leads(w, w') && Inv(w') && Known(w', o)
    ensures w'.cases[o].place.pc == MarkingFailed && w'.cases[o].row == w.cases[o].row
    ensures w'.ledger.claims[o].hold == Free
  {
    hide Inv, Leads, PlaceSideLeads, Step;
    w' := PlaceLeads(w, o, Delivered, 0);
  }

  /** From wherever the catch block is, stock and money can go back with the status still unwritten. */
  lemma ReturnsLead(w: World, o: nat) returns (w': World)
    requires Inv(w) && Known(w, o)
    requires Compensating(w.cases[o].place.pc) && RefundOpen(w.cases[o].account.books)
    ensures PlaceSideLeads(w, w', o) && Leads(w, w') && Inv(w') && Known(w', o)
    ensures w'.cases[o].place.pc == MarkingFailed && w'.cases[o].row == w.cases[o].row
    ensures w'.ledger.claims[o].hold == Free
  {
    assert CaseOk(w.cases[o], w.ledger.claims[o]);
    NoStepLeads(w, o);
    hide Leads, PlaceSideLeads, Step, RefundOpen;
    match w.cases[o].place.pc
    case Refunding =>
      var w1 := RefundingLeads(w, o);
      w' := UndoingLeads(w1, o);
      ThenLeads(w, w1, w', o);
    case Undoing => w' := UndoingLeads(w, o);
    case _ => w' := w;
  }

  /** A run that has not ended can be sent to its catch block. */
  lemma CatchLeads(w: World, o: nat) returns (w': World)
    requires Inv(w) && Known(w, o) && PlaceLive(w.cases[o].place.pc)
    ensures PlaceSideLeads(w, w', o) && Leads(w, w') && Inv(w') && Known(w', o)
    ensures Compensating(w'.cases[o].place.pc)
    ensures w'.cases[o].account == w.cases[o].account && w'.cases[o].row == w.cases[o].row
  {
    hide Inv, Leads, PlaceSideLeads, Step, ClaimAfter;
    if Compensating(w.cases[o].place.pc) {
      w' := w;
      NoStepLeads(w, o);
    } else {
      w' := PlaceLeads(w, o, Unreached, 0);
    }
  }

  /** Some continuation rolls the order back completely and says so. */
  ghost predicate CanRollBack(w: World, o: nat) {
    exists w' :: Leads(w, w') && Known(w', o) && w'.cases[o].place.pc == PlaceFailed
  }

  lemma RollBackLeads(w: World, o: nat) returns (w': World)
    requires Inv(w) && Known(w, o) && PlaceLive(w.cases[o].place.pc) && RefundOpen(w.cases[o].account.books)
    ensures Leads(w, w') && Known(w', o) && w'.cases[o].place.pc == PlaceFailed
  {
    hide Inv, Leads, PlaceSideLeads, Step, RefundOpen;
    var w1 := CatchLeads(w, o);
    var w2 := ReturnsLead(w1, o);
    LeadsTransitive(w, w1, w2);
    w' := PlaceLeads(w2, o, Delivered, 0);
    LeadsTransitive(w, w2, w');
  }

  /**
   * At every step of every place run, forward or compensating, the complete rollback is within reach
   * if and only if neither of the order's Stripe keys replays a refusal. Nothing that other orders,
   * adjustments or payment attempts did can take it away otherwise.
   */
  lemma CanRollBackIff(w: World, o: nat)
    requires Reached(w) && Known(w, o) && PlaceLive(w.cases[o].place.pc)
    ensures CanRollBack(w, o) <==> RefundOpen(w.cases[o].account.books)
  {
    ReachedInv(w);
    if RefundOpen(w.cases[o].account.books) {
      var w' := RollBackLeads(w, o);
    } else if CanRollBack(w, o) {
      var w' :| Leads(w, w') && Known(w', o) && w'.cases[o].place.pc == PlaceFailed;
      RefusalIsForGood(w, w', o);
    }
  }

  /** Once a key replays a refusal, no continuation gets past the refund or writes PLACE_FAILED. */
  lemma RefusalIsForGood(w: World, w': World, o: nat)
    requires Inv(w) && Known(w, o) && Leads(w, w') && !RefundOpen(w.cases[o].account.books)
    ensures Known(w', o) && Inv(w')
    ensures w'.cases[o].row.status != PLACE_FAILED && !AfterRefund(w'.cases[o].place.pc)
    ensures w'.cases[o].row.status == CANCELLED ==> w'.cases[o].row.paymentId.None?
    ensures Pay.Kept(w'.cases[o].account.books) ==
              if Pay.ChargeRefused(w.cases[o].account.books) then 0 else Pay.Cents(w.cases[o].row.total)
  {
    LeadsKeeps(w, w', o);
    var c, c' := w.cases[o], w'.cases[o];
    assert CaseOk(c, w.ledger.claims[o]) && CaseOk(c', w'.ledger.claims[o]);
    Pay.RefusalsStay(c.account.books, c'.account.books, c.row.total);
    Pay.MoneyInBooks(c'.account.books, c'.row.total);
  }

  // ----- cancelling -----

  /** The cancel's try block has not failed. */
  predicate CancelTrying(pc: CancelPc) { CancelLive(pc) && !pc.MarkingCancelFailed? }

  ghost predicate CanCancel(w: World, o: nat) {
    exists w' :: Leads(w, w') && Known(w', o) && w'.cases[o].cancel.pc == Cancelled
  }

  lemma CancelRefundLeads(w: World, o: nat) returns (w': World)
    requires Inv(w) && Known(w, o) && w.cases[o].cancel.pc == RefundingCancel
    requires !Pay.RefundRefused(w.cases[o].account.books)
    ensures Leads(w, w') && Inv(w') && Known(w', o) && w'.cases[o].cancel.pc == ReadingItems
  {
    assert RefundOpen(w.cases[o].account.books) && w.cases[o].account.books.rows != [] by {
      assert CaseOk(w.cases[o], w.ledger.claims[o]);
    }
    hide Inv, Leads, Step, RefundOpen, Pay.Settled, Pay.RefundRefused;
    var w1, via := RefundLeads(w, o, None);
    w' := CancelLeads(w1, o, via, []);
    LeadsTransitive(w, w1, w');
  }

  lemma CancelReadLeads(w: World, o: nat) returns (w': World)
    requires Inv(w) && Known(w, o) && CancelTrying(w.cases[o].cancel.pc)
    requires w.cases[o].row.paymentId.None? || !Pay.RefundRefused(w.cases[o].account.books)
    ensures Leads(w, w') && Inv(w') && Known(w', o)
    ensures CancelTrying(w'.cases[o].cancel.pc)
    ensures !w'.cases[o].cancel.pc.ReadingPayment? && !w'.cases[o].cancel.pc.RefundingCancel?
  {
    assert CaseOk(w.cases[o], w.ledger.claims[o]);
    NoActionLeads(w);
    hide Leads, Step, Pay.RefundRefused;
    w' := w;
    if w.cases[o].cancel.pc == ReadingPayment {
      w' := CancelLeads(w, o, 0, []);
    }
    if w'.cases[o].cancel.pc == RefundingCancel {
      var w1 := w';
      w' := CancelRefundLeads(w1, o);
      LeadsTransitive(w, w1, w');
    }
  }

  lemma CancelledSays(w: World, o: nat)
    requires Inv(w) && Known(w, o) && w.cases[o].cancel.pc == Cancelled
    ensures w.cases[o].row.status == CANCELLED
  {
    assert CaseOk(w.cases[o], w.ledger.claims[o]);
  }

  /** The rest of the cancel, once the refund is behind it. */
  lemma CancelEndLeads(w: World, o: nat) returns (w': World)
    requires Inv(w) && Known(w, o) && CancelTrying(w.cases[o].cancel.pc)
    requires !w.cases[o].cancel.pc.ReadingPayment? && !w.cases[o].cancel.pc.RefundingCancel?
    ensures Leads(w, w') && Known(w', o) && w'.cases[o].cancel.pc == Cancelled
  {
    hide Inv, Leads, Step;
    w' := w;
    NoActionLeads(w);
    if w'.cases[o].cancel.pc == ReadingItems {
      w' := CancelLeads(w, o, 0, ItemsOf(w.cases[o].row.lines));
    }
    if w'.cases[o].cancel.pc == UndoingCancel {
      var w2 := CancelLeads(w', o, 0, []);
      LeadsTransitive(w, w', w2);
      w' := w2;
    }
    var w3 := CancelLeads(w', o, 0, []);
    LeadsTransitive(w, w', w3);
    w' := w3;
  }

  /**
   * While a cancel is trying, CANCELLED is within reach if and only if the order has no saved payment
   * id or Stripe did not refuse its refund for good.
   */
  lemma CanCancelIff(w: World, o: nat)
    requires Reached(w) && Known(w, o) && CancelTrying(w.cases[o].cancel.pc)
    ensures CanCancel(w, o) <==>
              w.cases[o].row.paymentId.None? || !Pay.RefundRefused(w.cases[o].account.books)
  {
    ReachedInv(w);
    hide Inv, Leads;
    if w.cases[o].row.paymentId.None? || !Pay.RefundRefused(w.cases[o].account.books) {
      var w1 := CancelReadLeads(w, o);
      var w2 := CancelEndLeads(w1, o);
      LeadsTransitive(w, w1, w2);
    } else if CanCancel(w, o) {
      var w' :| Leads(w, w') && Known(w', o) && w'.cases[o].cancel.pc == Cancelled;
      LeadsKeeps(w, w', o);
      CancelledSays(w', o);
      RefusalIsForGood(w, w', o);
    }
  }

  // ----- what CANCELLED means from now on -----

  /** Nobody ever holds the customer's money from now on. */
  ghost predicate NeverKept(w: World, o: nat) {
    forall w' :: Leads(w, w') ==> Known(w', o) && Pay.Kept(w'.cases[o].account.books) == 0
  }

  /** The order was free, never charged, or is refunded, or its charge is decided against. */
  predicate ChargeIsOver(c: Case) {
    || c.row.total == 0 || c.row.paymentId.Some? || !c.place.attempted
    || Pay.Repaid(c.account.books) || (c.account.books.chargeKey.Some? && !Pay.Paid(c.account.books))
  }

  lemma CancelledIsClosed(w: World, o: nat)
    requires Inv(w) && Known(w, o) && w.cases[o].row.status == CANCELLED
    ensures Closed(w.cases[o]) && w.ledger.claims[o].hold == Free
    ensures w.cases[o].row.paymentId.Some? ==> Pay.Settled(w.cases[o].account.books)
  {
    assert CaseOk(w.cases[o], w.ledger.claims[o]);
  }

  lemma OverStaysOver(w: World, w': World, o: nat)
    requires Inv(w) && Known(w, o) && w.cases[o].row.status == CANCELLED
    requires ChargeIsOver(w.cases[o]) && Leads(w, w')
    ensures Known(w', o) && Pay.Kept(w'.cases[o].account.books) == 0
  {
    CancelledIsClosed(w, o);
    ClosedStays(w, w', o);
    LeadsKeeps(w, w', o);
    var c, c' := w.cases[o], w'.cases[o];
    assert CaseOk(c, w.ledger.claims[o]) && CaseOk(c', w'.ledger.claims[o]);
    Pay.MoneyInBooks(c'.account.books, c'.row.total);
  }

  /** If the charge is not over, some continuation holds the whole price. */
  lemma LateChargeLeads(w: World, o: nat) returns (w': World)
    requires Inv(w) && Known(w, o) && !ChargeIsOver(w.cases[o])
    ensures Leads(w, w') && Known(w', o)
    ensures Pay.Kept(w'.cases[o].account.books) == Pay.Cents(w.cases[o].row.total) != 0
  {
    var c := w.cases[o];
    assert CaseOk(c, w.ledger.claims[o]);
    if c.account.books.chargeKey.Some? {
      w' := w;
      NoActionLeads(w);
    } else {
      var events := Pay.SmoothAttempt(c.account, Pay.ChargeLookup(c.row.total), 2);
      Pay.LateChargeCaptures(c.account, c.row.total);
      PaymentsLead(w, o, events);
      w' := WithAccount(w, o, Pay.AccountRun(c.account, events, c.row.total));
    }
    Pay.MoneyInBooks(w'.cases[o].account.books, c.row.total);
  }

  /**
   * A CANCELLED order's stock went back for good. Its money stays back for good if and only if the
   * order was free, has a saved payment id, was never charged, is refunded, or its charge was decided
   * against; in every other case some late attempt leaves the customer charged in full.
   */
  lemma CancelledMeans(w: World, o: nat)
    requires Reached(w) && Known(w, o) && w.cases[o].row.status == CANCELLED
    ensures forall w' :: Leads(w, w') ==> Known(w', o) && w'.ledger.claims[o].hold == Free
    ensures NeverKept(w, o) <==> ChargeIsOver(w.cases[o])
  {
    ReachedInv(w);
    CancelledIsClosed(w, o);
    forall w' | Leads(w, w') ensures Known(w', o) && w'.ledger.claims[o].hold == Free {
      ClosedStays(w, w', o);
    }
    if ChargeIsOver(w.cases[o]) {
      forall w' | Leads(w, w') ensures Known(w', o) && Pay.Kept(w'.cases[o].account.books) == 0 {
        OverStaysOver(w, w', o);
      }
    } else {
      var w' := LateChargeLeads(w, o);
    }
  }

  // ----- what SHIPPING means from now on -----

  /** Shipped, taken out of stock, captured and not refunded. */
  predicate Sold(w: World, o: nat)
    requires Known(w, o)
  {
    && w.cases[o].shipments > 0 && w.ledger.claims[o].hold == Deducted
    && Pay.Paid(w.cases[o].account.books) && !Pay.Repaid(w.cases[o].account.books)
  }

  lemma SoldMoney(w: World, o: nat)
    requires Inv(w) && Known(w, o) && Sold(w, o)
    ensures Pay.Captured(w.cases[o].account.books.intents) == Pay.Cents(LinesTotal(w.cases[o].row.lines))
    ensures Pay.Returned(w.cases[o].account.books.refunds) == 0
  {
    assert CaseOk(w.cases[o], w.ledger.claims[o]);
    Pay.MoneyInBooks(w.cases[o].account.books, w.cases[o].row.total);
  }

  /** For as long as the order says SHIPPING, it is sold. */
  ghost predicate StaysSold(w: World, o: nat) {
    forall w' :: Leads(w, w') && Known(w', o) && w'.cases[o].row.status == SHIPPING ==> Sold(w', o)
  }

  /** The run succeeded; or it cannot return the stock, and nothing under way can return the money. */
  predicate SaleIsSafe(c: Case, hold: Hold) {
    || c.place.pc == Placed
    || (hold == Deducted && Pay.RefundRefused(c.account.books))
    || (hold == Deducted && !Pay.Repaid(c.account.books) && c.place.pc == Abandoned && Pay.NoneMayRepay(c.account))
  }

  lemma SafeSaleIsSold(w: World, o: nat)
    requires Inv(w) && Known(w, o)
    requires w.cases[o].row.status == SHIPPING && SaleIsSafe(w.cases[o], w.ledger.claims[o].hold)
    ensures Sold(w, o)
  {
    assert CaseOk(w.cases[o], w.ledger.claims[o]);
  }

  /** A payment attempt's step leaves a sale safe that is not settled by the run's success. */
  lemma SafeSalePays(c: Case, claim: Claim, e: Pay.Event)
    requires CaseOk(c, claim) && c.row.status == SHIPPING && SaleIsSafe(c, claim.hold) && c.place.pc != Placed
    requires e.Start? ==> MayStart(c, e.attempt)
    ensures SaleIsSafe(c.(account := Pay.AccountStep(c.account, e, c.row.total)), claim.hold)
  {
    Pay.AccountStepOk(c.account, e, c.row.total);
    Pay.StaysPaidStep(c.account, e, c.row.total);
  }

  /** So does a step of the place run: the refund it waits for never returns. */
  lemma SafeSalePlaces(c: Case, claim: Claim, net: Net, via: nat, granted: bool)
    requires CaseOk(c, claim) && c.row.status == SHIPPING && SaleIsSafe(c, claim.hold)
    ensures
      var c' := PlaceStep(c, net, via, granted);
      PlaceCall(c).None? && c'.row == c.row && SaleIsSafe(c', claim.hold)
  {
    if Refunded(c, via) {
      assert Pay.AttemptOk(c.account.books, c.account.attempts[via], c.row.total);
    }
  }

  lemma SafeSaleStep(w: World, a: Action, o: nat)
    requires Inv(w) && Known(w, o)
    requires w.cases[o].row.status == SHIPPING && SaleIsSafe(w.cases[o], w.ledger.claims[o].hold)
    ensures
      var w' := Step(w, a);
      && Known(w', o)
      && w'.cases[o].row.status == SHIPPING && SaleIsSafe(w'.cases[o], w'.ledger.claims[o].hold)
  {
    var c, claim := w.cases[o], w.ledger.claims[o];
    assert CaseOk(c, claim);
    if Subject(a) != Some(o) {
      OthersLeaveOrder(w, a, o);
    } else if c.place.pc == Placed {
      ClosedStaysOneStep(w, a, o);
    } else {
      match a
      case StartAttempt(_, attempt) => if MayStart(c, attempt) { SafeSalePays(c, claim, Pay.Start(attempt)); }
      case AdvanceAttempt(_, k, luck) => SafeSalePays(c, claim, Pay.Advance(k, luck));
      case PlaceNext(_, net, via) =>
        SafeSalePlaces(c, claim, net, via, Granted(w.ledger, PlaceCall(c), net, claim.items));
      case _ =>
    }
  }

  lemma {:induction false} SafeSaleStays(w: World, actions: seq<Action>, o: nat)
    requires Inv(w) && Known(w, o) && Disciplined(w, actions)
    requires w.cases[o].row.status == SHIPPING && SaleIsSafe(w.cases[o], w.ledger.claims[o].hold)
    ensures Known(Exec(w, actions), o) && Sold(Exec(w, actions), o)
    decreases |actions|
  {
    if actions == [] {
      SafeSaleIsSold(w, o);
    } else {
      StepKeepsInv(w, actions[0]);
      SafeSaleStep(w, actions[0], o);
      SafeSaleStays(Step(w, actions[0]), actions[1..], o);
    }
  }

  /** An unsafe sale is undone by some continuation that still says SHIPPING. */
  lemma UnsafeSaleLeads(w: World, o: nat) returns (w': World)
    requires Inv(w) && Known(w, o) && w.cases[o].row.status == SHIPPING
    requires !SaleIsSafe(w.cases[o], w.ledger.claims[o].hold)
    ensures Leads(w, w') && Known(w', o) && w'.cases[o].row.status == SHIPPING && !Sold(w', o)
  {
    var c := w.cases[o];
    assert CaseOk(c, w.ledger.claims[o]);
    w' := w;
    NoActionLeads(w);
    if Sold(w, o) {
      if c.place.pc == Refunding {
        w' := ReturnsLead(w, o);
      } else {
        var k: nat :| k < |c.account.attempts| && Pay.MayRepay(c.account.attempts[k]);
        var events := Pay.PendingRefundRepays(c.account, c.row.total, k);
        PaymentsLead(w, o, events);
        w' := WithAccount(w, o, Pay.AccountRun(c.account, events, c.row.total));
      }
    }
  }

  /**
   * SHIPPING always means that a shipment exists. It keeps meaning deducted, captured and not refunded
   * if and only if the order's run succeeded, or can return neither the stock nor the money any more.
   */
  lemma ShippingMeansSold(w: World, o: nat)
    requires Reached(w) && Known(w, o) && w.cases[o].row.status == SHIPPING
    ensures w.cases[o].shipments > 0
    ensures StaysSold(w, o) <==> SaleIsSafe(w.cases[o], w.ledger.claims[o].hold)
    ensures Sold(w, o) ==>
              && Pay.Captured(w.cases[o].account.books.intents) == Pay.Cents(LinesTotal(w.cases[o].row.lines))
              && Pay.Returned(w.cases[o].account.books.refunds) == 0
  {
    ReachedInv(w);
    if Sold(w, o) {
      SoldMoney(w, o);
    }
    assert CaseOk(w.cases[o], w.ledger.claims[o]);
    if SaleIsSafe(w.cases[o], w.ledger.claims[o].hold) {
      forall w' | Leads(w, w') && Known(w', o) && w'.cases[o].row.status == SHIPPING ensures Sold(w', o) {
        var actions :| Disciplined(w, actions) && Exec(w, actions) == w';
        SafeSaleStays(w, actions, o);
      }
    } else {
      var w' := UnsafeSaleLeads(w, o);
    }
  }

  /** Sold in every continuation, whatever the status says there. */
  ghost predicate SoldForGood(w: World, o: nat) {
    forall w' :: Leads(w, w') ==> Known(w', o) && Sold(w', o)
  }

  /**
   * The fate of the last status write decides: once SHIPPING is written, the sale is for good if and
   * only if the workflow gets the acknowledgement. Otherwise it goes on to undo an order that says SHIPPING.
   */
  lemma LastWriteDecides(w: World, o: nat, net: Net, via: nat)
    requires Reached(w) && Known(w, o) && w.cases[o].place.pc == MarkingShipped && net.TookEffect()
    ensures
      var w1 := Step(w, PlaceNext(o, net, via));
      && Known(w1, o) && w1.cases[o].row.status == SHIPPING && Sold(w1, o)
      && (StaysSold(w1, o) <==> net == Delivered)
      && (SoldForGood(w1, o) <==> net == Delivered)
  {
    ReachedInv(w);
    assert CaseOk(w.cases[o], w.ledger.claims[o]);
    var w1 := PlaceLeads(w, o, net, via);
    LeadsTransitive(EMPTY_WORLD, w, w1);
    ShippingMeansSold(w1, o);
    assert CaseOk(w1.cases[o], w1.ledger.claims[o]);
    if net == Delivered {
      SafeSaleForGood(w1, o);
    } else {
      var w' := UnsafeSaleLeads(w1, o);
    }
  }

  lemma SafeSaleForGood(w: World, o: nat)
    requires Inv(w) && Known(w, o)
    requires w.cases[o].row.status == SHIPPING && SaleIsSafe(w.cases[o], w.ledger.claims[o].hold)
    ensures SoldForGood(w, o) && Sold(w, o)
  {
    SafeSaleIsSold(w, o);
    forall w' | Leads(w, w') ensures Known(w', o) && Sold(w', o) {
      var actions :| Disciplined(w, actions) && Exec(w, actions) == w';
      SafeSaleStays(w, actions, o);
    }
  }
}
