/**
 * Reachable states that show where the guarantees stop: each is one order of two units at 5
 * dollars, taken through a concrete run.
 */
module Counterexamples {
  import opened Common
  import opened Inventory
  import opened Ledger
  import opened Orders
  import opened Saga
  import opened Platform
  import opened Guarantees
  import opened Outcomes
  import opened CancelGate
  import Pay = Payment

  const ITEMS := [Item(1, 2)]
  const LINES := [Line(1, 2, 5)]

  /** A shop with ten units of product 1 and one order for two of them. */
  function Shop(row: Row, hold: Hold, c: Case): World {
    World(Ledger(map[1 := row], map[1 := 10], [Claim(ITEMS, hold)]), [c])
  }

  function Row0(status: OrderStatus, paymentId: Option<nat>): OrderRow { OrderRow(status, 10, paymentId, LINES) }

  function Place0(pc: PlacePc, paymentId: Option<nat>, confirmed: bool): PlaceRun {
    PlaceRun(pc, true, true, confirmed, paymentId, Some(10))
  }

  const NO_CANCEL := CancelRun(Idle, None, [])

  /** Books after a successful charge, with the row saved or not. */
  const CHARGED := Pay.Books([], [Pay.Intent(0, 1000, true)], [], Some(Pay.Bound(1000, Pay.Made(0))), None)
  const SAVED := CHARGED.(rows := [Pay.Txn(1, 0, 1000, Pay.SUCCESS)])
  const REPAID := SAVED.(rows := [Pay.Txn(1, 0, 1000, Pay.REFUNDED)],
                         refunds := [Pay.Refund(0, 0, 1000, true)],
                         refundKey := Some(Pay.Bound(0, Pay.Made(0))))

  lemma Extend(w: World, a: Action)
    requires Reached(w) && Fit(w, a)
    ensures Reached(Step(w, a))
  {
    StepLeads(w, a);
    LeadsTransitive(EMPTY_WORLD, w, Step(w, a));
  }

  lemma OneItem(act: Activity, row: Row)
    ensures RunAll(act, map[1 := row], ITEMS) ==
              if Matches(act, row, 2) then Some(map[1 := Applied(act, row, 2)]) else None
  {
    assert ITEMS[1..] == [];
    if Matches(act, row, 2) {
      assert map[1 := row][1 := Applied(act, row, 2)] == map[1 := Applied(act, row, 2)];
      assert RunAll(act, map[1 := Applied(act, row, 2)], []) == Some(map[1 := Applied(act, row, 2)]);
    }
  }

  // ----- one action on the only order -----

  lemma Pays(row: Row, hold: Hold, c: Case, e: Pay.Event, account: Pay.Account)
    requires Reached(Shop(row, hold, c))
    requires e.Start? ==> MayStart(c, e.attempt)
    requires Pay.AccountStep(c.account, e, c.row.total) == account
    ensures Reached(Shop(row, hold, c.(account := account)))
  {
    var a :=
      match e
      case Start(attempt) => StartAttempt(0, attempt)
      case Advance(k, luck) => AdvanceAttempt(0, k, luck);
    Extend(Shop(row, hold, c), a);
    assert [c][0 := c.(account := account)] == [c.(account := account)];
  }

  lemma Places(row: Row, hold: Hold, c: Case, net: Net, via: nat, c': Case)
    requires Reached(Shop(row, hold, c))
    requires PlaceCall(c).None? || net != Delivered
    requires c' == PlaceStep(c, net, via, false)
    ensures Reached(Shop(row, hold, c'))
  {
    Extend(Shop(row, hold, c), PlaceNext(0, net, via));
    assert [c][0 := c'] == [c'];
  }

  lemma PlacesStock(row: Row, hold: Hold, c: Case, act: Activity, c': Case)
    requires Reached(Shop(row, hold, c))
    requires PlaceCall(c) == Some(act) && Matches(act, row, 2)
    requires c' == PlaceStep(c, Delivered, 0, true)
    ensures Reached(Shop(Applied(act, row, 2), After(act), c'))
  {
    Extend(Shop(row, hold, c), PlaceNext(0, Delivered, 0));
    OneItem(act, row);
    assert [c][0 := c'] == [c'];
    assert [Claim(ITEMS, hold)][0 := Claim(ITEMS, After(act))] == [Claim(ITEMS, After(act))];
  }

  lemma Cancels(row: Row, hold: Hold, c: Case, via: nat, c': Case)
    requires Reached(Shop(row, hold, c))
    requires CancelCall(c).None?
    requires c' == CancelStep(c, Delivered, via, false, ITEMS)
    ensures Reached(Shop(row, hold, c'))
  {
    Extend(Shop(row, hold, c), CancelNext(0, Delivered, via, ITEMS));
    assert [c][0 := c'] == [c'];
  }

  lemma CancelsStock(row: Row, hold: Hold, c: Case, act: Activity, c': Case)
    requires Reached(Shop(row, hold, c))
    requires CancelCall(c) == Some(act) && c.cancel.listing == ITEMS && Matches(act, row, 2)
    requires c' == CancelStep(c, Delivered, 0, true, ITEMS)
    ensures Reached(Shop(Applied(act, row, 2), After(act), c'))
  {
    Extend(Shop(row, hold, c), CancelNext(0, Delivered, 0, ITEMS));
    OneItem(act, row);
    assert [c][0 := c'] == [c'];
    assert [Claim(ITEMS, hold)][0 := Claim(ITEMS, After(act))] == [Claim(ITEMS, After(act))];
  }

  // ----- the common way -----

  const NONE_YET := Pay.Account(Pay.EMPTY_BOOKS, [])
  const CHARGE_SAVED := Pay.Account(SAVED, [Pay.ChargeDone(1)])
  const REFUND_DONE := Pay.Account(REPAID, [Pay.ChargeDone(1), Pay.RefundDone])

  /** The order before a payment id is written, and after. */
  function Unpaid(pc: PlacePc, account: Pay.Account): Case {
    Case(Row0(PENDING, None), Place0(pc, None, false), NO_CANCEL, account, 0, false)
  }

  function Paid(pc: PlacePc, status: OrderStatus, confirmed: bool, account: Pay.Account, shipments: nat): Case {
    Case(Row0(status, Some(1)), Place0(pc, Some(1), confirmed), NO_CANCEL, account, shipments, false)
  }

  lemma ReachCreated()
    ensures Reached(Shop(Row(10, 0), Free, NewCase(Row0(PENDING, None), Reserving)))
  {
    assert Exec(EMPTY_WORLD, []) == EMPTY_WORLD && Disciplined(EMPTY_WORLD, []);
    var stock := InitializeStock(1, 10);
    Extend(EMPTY_WORLD, stock);
    var w := Step(EMPTY_WORLD, stock);
    RowOfItems();
    Extend(w, CreateOrder(ITEMS, PRICES, Delivered));
    assert Step(w, CreateOrder(ITEMS, PRICES, Delivered)) ==
      Shop(Row(10, 0), Free, NewCase(Row0(PENDING, None), Reserving));
  }

  const PRICES: Prices := map[1 := 5]

  lemma RowOfItems()
    ensures Created(ITEMS, PRICES) == Some(Row0(PENDING, None))
  {
    assert ITEMS[1..] == [];
    assert TotalFrom(0, ITEMS, PRICES) == TotalFrom(10, [], PRICES);
    PricedIffTotal(0, ITEMS, PRICES);
    assert PricedLines(ITEMS, PRICES) == LINES;
  }

  lemma ReachCharging()
    ensures Reached(Shop(Row(10, 2), Held, Unpaid(Charging, NONE_YET)))
  {
    ReachCreated();
    var c := NewCase(Row0(PENDING, None), Reserving);
    var c1 := c.(place := PlaceRun(ReadingTotal, true, false, false, None, None));
    PlacesStock(Row(10, 0), Free, c, Reserve, c1);
    Places(Row(10, 2), Held, c1, Delivered, 0, Unpaid(Charging, NONE_YET));
  }

  /** One attempt has charged; `lost` says whether Stripe's reply went missing. */
  lemma ReachCaptured(lost: bool)
    ensures Reached(Shop(Row(10, 2), Held, Unpaid(Charging, Captured0(lost))))
  {
    ReachCharging();
    var looking := Pay.Account(Pay.EMPTY_BOOKS, [Pay.ChargeLookup(10)]);
    var calling := Pay.Account(Pay.EMPTY_BOOKS, [Pay.ChargeCall(10)]);
    Pays(Row(10, 2), Held, Unpaid(Charging, NONE_YET), Pay.Start(Pay.ChargeLookup(10)), looking);
    assert looking.attempts[0 := Pay.ChargeCall(10)] == calling.attempts;
    Pays(Row(10, 2), Held, Unpaid(Charging, looking), Pay.Advance(0, Pay.SMOOTH), calling);
    assert calling.attempts[0 := Captured0(lost).attempts[0]] == Captured0(lost).attempts;
    Pays(Row(10, 2), Held, Unpaid(Charging, calling),
         Pay.Advance(0, Pay.SMOOTH.(net := if lost then Lost else Delivered)), Captured0(lost));
  }

  function Captured0(lost: bool): Pay.Account {
    Pay.Account(CHARGED, [if lost then Pay.Threw(Pay.Transient) else Pay.ChargeSave(0)])
  }

  lemma ReachPaid()
    ensures Reached(Shop(Row(10, 2), Held, Paid(Confirming, PAID, false, CHARGE_SAVED, 0)))
  {
    ReachCaptured(false);
    assert Captured0(false).attempts[0 := Pay.ChargeDone(1)] == CHARGE_SAVED.attempts;
    Pays(Row(10, 2), Held, Unpaid(Charging, Captured0(false)), Pay.Advance(0, Pay.SMOOTH), CHARGE_SAVED);
    var saving := Unpaid(SavingPayment, CHARGE_SAVED).(place := Place0(SavingPayment, Some(1), false));
    Places(Row(10, 2), Held, Unpaid(Charging, CHARGE_SAVED), Delivered, 0, saving);
    Places(Row(10, 2), Held, saving, Delivered, 0, Paid(MarkingPaid, PENDING, false, CHARGE_SAVED, 0));
    Places(Row(10, 2), Held, Paid(MarkingPaid, PENDING, false, CHARGE_SAVED, 0), Delivered, 0,
           Paid(Confirming, PAID, false, CHARGE_SAVED, 0));
  }

  /** A refund attempt of a workflow that may start one runs through. */
  lemma RefundRuns(row: Row, hold: Hold, c: Case, known: Option<int>)
    requires Reached(Shop(row, hold, c))
    requires MayStart(c, Pay.RefundLookup(known)) && (known == Some(10) || known == None)
    requires c.account == CHARGE_SAVED && c.row.total == 10
    ensures Reached(Shop(row, hold, c.(account := REFUND_DONE)))
  {
    hide Reached, Shop;
    var a1 := Pay.Account(SAVED, [Pay.ChargeDone(1), Pay.RefundLookup(known)]);
    var a2 := Pay.Account(SAVED, [Pay.ChargeDone(1), Pay.RefundCall(0, Some(1))]);
    var a3 := Pay.Account(REPAID.(rows := SAVED.rows), [Pay.ChargeDone(1), Pay.RefundUpdate(1)]);
    RefundSteps(known, a1, a2, a3);
    Pays(row, hold, c, Pay.Start(Pay.RefundLookup(known)), a1);
    Pays(row, hold, c.(account := a1), Pay.Advance(1, Pay.SMOOTH), a2);
    Pays(row, hold, c.(account := a2), Pay.Advance(1, Pay.SMOOTH), a3);
    Pays(row, hold, c.(account := a3), Pay.Advance(1, Pay.SMOOTH), REFUND_DONE);
  }

  lemma RefundSteps(known: Option<int>, a1: Pay.Account, a2: Pay.Account, a3: Pay.Account)
    requires known == Some(10) || known == None
    requires a1 == Pay.Account(SAVED, [Pay.ChargeDone(1), Pay.RefundLookup(known)])
    requires a2 == Pay.Account(SAVED, [Pay.ChargeDone(1), Pay.RefundCall(0, Some(1))])
    requires a3 == Pay.Account(REPAID.(rows := SAVED.rows), [Pay.ChargeDone(1), Pay.RefundUpdate(1)])
    ensures Pay.AccountStep(CHARGE_SAVED, Pay.Start(Pay.RefundLookup(known)), 10) == a1
    ensures Pay.AccountStep(a1, Pay.Advance(1, Pay.SMOOTH), 10) == a2
    ensures Pay.AccountStep(a2, Pay.Advance(1, Pay.SMOOTH), 10) == a3
    ensures Pay.AccountStep(a3, Pay.Advance(1, Pay.SMOOTH), 10) == REFUND_DONE
  {
    Pay.RowsOfOne(SAVED.rows, 1);
    Pay.ObjectsOfOne(SAVED, 0);
    Pay.ObjectsOfOne(REPAID, 0);
    assert a1.attempts[1 := Pay.RefundCall(0, Some(1))] == a2.attempts;
    assert a2.attempts[1 := Pay.RefundUpdate(1)] == a3.attempts;
    assert a3.attempts[1 := Pay.RefundDone] == REFUND_DONE.attempts;
  }

  // ----- where the guarantees stop -----

  /**
   * SHIPPING alone promises nothing: when the acknowledgement of that last status write is lost,
   * the run compensates, and an order that still says SHIPPING has its stock and money back.
   */
  lemma ShippingWithEverythingReturned() returns (w: World)
    ensures Reached(w) && Known(w, 0)
    ensures w.cases[0].row.status == SHIPPING
    ensures w.ledger.claims[0].hold == Free && Pay.Kept(w.cases[0].account.books) == 0
  {
    ReachLostShipping();
    var refunding := Paid(Refunding, SHIPPING, true, CHARGE_SAVED, 1);
    RefundRuns(Row(8, 0), Deducted, refunding, Some(10));
    var undoing := Paid(Undoing, SHIPPING, true, REFUND_DONE, 1);
    Places(Row(8, 0), Deducted, refunding.(account := REFUND_DONE), Delivered, 1, undoing);
    PlacesStock(Row(8, 0), Deducted, undoing, Restore, At(undoing, MarkingFailed));
    w := Shop(Row(10, 0), Free, At(undoing, MarkingFailed));
    Pay.MoneyInBooks(REPAID, 10);
  }

  /** The status write took effect, but the workflow takes it for failed. */
  lemma ReachLostShipping()
    ensures Reached(Shop(Row(8, 0), Deducted, Paid(Refunding, SHIPPING, true, CHARGE_SAVED, 1)))
  {
    ReachPaid();
    var shipping := Paid(Shipping, PAID, true, CHARGE_SAVED, 0);
    PlacesStock(Row(10, 2), Held, Paid(Confirming, PAID, false, CHARGE_SAVED, 0), Confirm, shipping);
    var marking := Paid(MarkingShipped, PAID, true, CHARGE_SAVED, 1);
    Places(Row(8, 0), Deducted, shipping, Delivered, 0, marking);
    var refunding := Paid(Refunding, SHIPPING, true, CHARGE_SAVED, 1);
    Places(Row(8, 0), Deducted, marking, Lost, 0, refunding);
  }

  /**
   * CANCELLED can leave the customer charged: the charge's reply is lost, the compensation's refund
   * fails, and the cancel workflow refunds nothing because no payment id was saved.
   */
  lemma CancelledWithMoneyKept() returns (w: World)
    ensures Reached(w) && Known(w, 0)
    ensures w.cases[0].row.status == CANCELLED
    ensures Pay.Kept(w.cases[0].account.books) == 1000
  {
    ReachCancelStarted();
    var c := Unpaid(Abandoned, Captured0(true));
    Cancels(Row(10, 2), Held, CancelAt(c, ReadingPayment), 0, CancelAt(c, ReadingItems));
    assert ItemsOf(LINES) == ITEMS;
    var undoing := c.(cancel := CancelRun(UndoingCancel, None, ITEMS));
    Cancels(Row(10, 2), Held, CancelAt(c, ReadingItems), 0, undoing);
    CancelsStock(Row(10, 2), Held, undoing, Release, CancelAt(undoing, MarkingCancelled));
    var done := CancelAt(undoing.(row := Row0(CANCELLED, None)), Cancelled);
    Cancels(Row(10, 0), Free, CancelAt(undoing, MarkingCancelled), 0, done);
    w := Shop(Row(10, 0), Free, done);
    Pay.MoneyInBooks(CHARGED, 10);
  }

  /** Captured without the workflow knowing; the refund failed; a cancel request came. */
  lemma ReachCancelStarted()
    ensures Reached(Shop(Row(10, 2), Held, CancelAt(Unpaid(Abandoned, Captured0(true)), ReadingPayment)))
  {
    ReachCaptured(true);
    var account := Captured0(true);
    Places(Row(10, 2), Held, Unpaid(Charging, account), Unreached, 0, Unpaid(Refunding, account));
    Places(Row(10, 2), Held, Unpaid(Refunding, account), Unreached, 0, Unpaid(Abandoned, account));
    var c := Unpaid(Abandoned, account);
    var reading := CancelAt(c, ReadingPayment);
    Extend(Shop(Row(10, 2), Held, c), StartCancel(0));
    assert [c][0 := reading] == [reading];
  }

  lemma RestoringReservedStock(w: World, c: Case)
    requires w == Shop(Row(10, 2), Held, c)
    ensures
      var l := CallWith(w.ledger, Restore, 0, ITEMS);
      l.table == map[1 := Row(12, 2)] && !Balanced(l)
  {
    OneItem(Restore, Row(10, 2));
    var l := CallWith(w.ledger, Restore, 0, ITEMS);
    assert l.claims[..0] == [];
    assert Outstanding(l.claims, Deducted, 1) == Outstanding([], Deducted, 1) + Share(l.claims[0], Deducted, 1);
    assert !RowBalanced(l, 1);
  }

  /**
   * `cancelOrder` lets an order in whose stock is only reserved although its payment id is saved,
   * with no place workflow running any more. Cancelling it would restore stock it never took.
   */
  lemma GateAdmitsUnfitCancel() returns (w: World)
    ensures Reached(w) && Known(w, 0)
    ensures MayCancel(w.cases[0]) && !PlaceLive(w.cases[0].place.pc)
    ensures !CancelFits(w.ledger.claims[0].hold, w.cases[0].row.paymentId)
    ensures
      var l := CallWith(w.ledger, CancelActivity(w.cases[0].row.paymentId), 0, ITEMS);
      l.table == map[1 := Row(12, 2)] && !Balanced(l)
  {
    ReachPaid();
    var refunding := Paid(Refunding, PAID, false, CHARGE_SAVED, 0);
    Places(Row(10, 2), Held, Paid(Confirming, PAID, false, CHARGE_SAVED, 0), Unreached, 0, refunding);
    Places(Row(10, 2), Held, refunding, Unreached, 0, At(refunding, Abandoned));
    w := Shop(Row(10, 2), Held, At(refunding, Abandoned));
    RestoringReservedStock(w, At(refunding, Abandoned));
  }

  /** It also lets in an order whose place workflow is still running, to the same effect. */
  lemma GateAdmitsCancelOfLiveRun() returns (w: World)
    ensures Reached(w) && Known(w, 0)
    ensures MayCancel(w.cases[0]) && PlaceLive(w.cases[0].place.pc)
    ensures
      var l := CallWith(w.ledger, CancelActivity(w.cases[0].row.paymentId), 0, ITEMS);
      l.table == map[1 := Row(12, 2)] && !Balanced(l)
  {
    ReachPaid();
    w := Shop(Row(10, 2), Held, Paid(Confirming, PAID, false, CHARGE_SAVED, 0));
    RestoringReservedStock(w, Paid(Confirming, PAID, false, CHARGE_SAVED, 0));
  }

  /**
   * It lets a second cancel in while the first is about to write CANCELLED. The second has read the
   * same payment id, so it would restore the stock once more.
   */
  lemma GateAdmitsSecondCancel() returns (w: World)
    ensures Reached(w) && Known(w, 0)
    ensures MayCancel(w.cases[0]) && w.cases[0].cancel.pc == MarkingCancelled
    ensures
      var l := CallWith(w.ledger, CancelActivity(w.cases[0].row.paymentId), 0, ITEMS);
      l.table == map[1 := Row(12, 0)] && !Balanced(l)
  {
    ReachPaidCancel();
    var c := CancelAt(Paid(Abandoned, PAID, true, CHARGE_SAVED, 0), ReadingPayment);
    var refunding := c.(cancel := CancelRun(RefundingCancel, Some(1), []));
    Cancels(Row(8, 0), Deducted, c, 0, refunding);
    RefundRuns(Row(8, 0), Deducted, refunding, None);
    var refunded := refunding.(account := REFUND_DONE);
    Cancels(Row(8, 0), Deducted, refunded, 1, CancelAt(refunded, ReadingItems));
    assert ItemsOf(LINES) == ITEMS;
    var undoing := refunded.(cancel := CancelRun(UndoingCancel, Some(1), ITEMS));
    Cancels(Row(8, 0), Deducted, CancelAt(refunded, ReadingItems), 0, undoing);
    CancelsStock(Row(8, 0), Deducted, undoing, Restore, CancelAt(undoing, MarkingCancelled));
    w := Shop(Row(10, 0), Free, CancelAt(undoing, MarkingCancelled));
    RestoringNothing(w, Row(10, 0), CancelAt(undoing, MarkingCancelled));
  }

  /**
   * The harm of a live run does not need a wrong payment id: this order is reserved, has none, and a
   * cancel of it would rightly release. But the run goes on to release once more.
   */
  lemma GateAdmitsFittingCancelOfLiveRun() returns (w: World)
    ensures Reached(w) && Known(w, 0)
    ensures MayCancel(w.cases[0]) && PlaceLive(w.cases[0].place.pc) && w.cases[0].cancel.pc == Idle
    ensures CancelFits(w.ledger.claims[0].hold, w.cases[0].row.paymentId)
    ensures CanBreak(Step(w, StartCancel(0)), 0, 1)
  {
    ReachCreated();
    var c := NewCase(Row0(PENDING, None), Reserving);
    var reading := c.(place := PlaceRun(ReadingTotal, true, false, false, None, None));
    PlacesStock(Row(10, 0), Free, c, Reserve, reading);
    w := Shop(Row(10, 2), Held, reading);
    DemandOfItems();
    CancelBreaksIff(w, 0, 1);
  }

  lemma DemandOfItems()
    ensures ItemsOf(LINES) == ITEMS && Demand(ITEMS, 1) == 2
  {
    assert ITEMS[1..] == [];
  }

  /** Nor does the harm of a second cancel: a first one is under way, rightly, and so would be the second. */
  lemma GateAdmitsOverlappingCancels() returns (w: World)
    ensures Reached(w) && Known(w, 0)
    ensures MayCancel(w.cases[0]) && !PlaceLive(w.cases[0].place.pc) && CancelLive(w.cases[0].cancel.pc)
    ensures CancelFits(w.ledger.claims[0].hold, w.cases[0].row.paymentId)
    ensures
      var once := CallWith(w.ledger, CancelActivity(w.cases[0].row.paymentId), 0, ITEMS);
      var twice := CallWith(once, CancelActivity(w.cases[0].row.paymentId), 0, ITEMS);
      Balanced(once) && twice.table == map[1 := Row(12, 0)] && !Balanced(twice)
  {
    ReachPaidCancel();
    w := Shop(Row(8, 0), Deducted, CancelAt(Paid(Abandoned, PAID, true, CHARGE_SAVED, 0), ReadingPayment));
    DemandOfItems();
    OneItem(Restore, Row(8, 0));
    OneItem(Restore, Row(10, 0));
    SecondCancelGivesBackTwice(w, 0, 1);
  }

  lemma RestoringNothing(w: World, row: Row, c: Case)
    requires w == Shop(row, Free, c) && row.stock == 10
    ensures
      var l := CallWith(w.ledger, Restore, 0, ITEMS);
      l.table == map[1 := Applied(Restore, row, 2)] && !Balanced(l)
  {
    OneItem(Restore, row);
    var l := CallWith(w.ledger, Restore, 0, ITEMS);
    assert l.claims[..0] == [];
    assert Outstanding(l.claims, Deducted, 1) == Outstanding([], Deducted, 1) + Share(l.claims[0], Deducted, 1);
    assert !RowBalanced(l, 1);
  }

  /** Confirmed and paid, but the shipment failed and so did the refund; then a cancel request came. */
  lemma ReachPaidCancel()
    ensures Reached(Shop(Row(8, 0), Deducted,
                         CancelAt(Paid(Abandoned, PAID, true, CHARGE_SAVED, 0), ReadingPayment)))
  {
    ReachPaid();
    var shipping := Paid(Shipping, PAID, true, CHARGE_SAVED, 0);
    PlacesStock(Row(10, 2), Held, Paid(Confirming, PAID, false, CHARGE_SAVED, 0), Confirm, shipping);
    var refunding := Paid(Refunding, PAID, true, CHARGE_SAVED, 0);
    Places(Row(8, 0), Deducted, shipping, Unreached, 0, refunding);
    var c := Paid(Abandoned, PAID, true, CHARGE_SAVED, 0);
    Places(Row(8, 0), Deducted, refunding, Unreached, 0, c);
    Extend(Shop(Row(8, 0), Deducted, c), StartCancel(0));
    assert [c][0 := CancelAt(c, ReadingPayment)] == [CancelAt(c, ReadingPayment)];
  }

  /**
   * It lets in a PENDING order that holds nothing, because the workflow never learned that the order
   * was created. Cancelling that one takes another order's reservation, whose confirmation then fails.
   */
  lemma GateAdmitsEmptyOrder() returns (w: World)
    ensures Reached(w) && Known(w, 0) && Known(w, 1)
    ensures MayCancel(w.cases[1]) && !PlaceLive(w.cases[1].place.pc) && w.ledger.claims[1].hold == Free
    ensures w.ledger.claims[0].hold == Held && RunAll(Confirm, w.ledger.table, w.ledger.claims[0].items).Some?
    ensures
      var l := CallWith(w.ledger, CancelActivity(w.cases[1].row.paymentId), 1, ITEMS);
      && l.claims[0].hold == Held
      && RunAll(Confirm, l.table, l.claims[0].items).None? && RunAll(Release, l.table, l.claims[0].items).None?
  {
    ReachCharging();
    RowOfItems();
    var before := Shop(Row(10, 2), Held, Unpaid(Charging, NONE_YET));
    var create := CreateOrder(ITEMS, PRICES, Lost);
    Extend(before, create);
    w := Step(before, create);
    assert w.ledger.claims == [Claim(ITEMS, Held), Claim(ITEMS, Free)];
    OneItem(Confirm, Row(10, 2));
    OneItem(Release, Row(10, 2));
    OneItem(Confirm, Row(10, 0));
    OneItem(Release, Row(10, 0));
  }

  /**
   * A declined card: the order is compensating, and no continuation ever completes that. Its stock
   * is still reserved.
   */
  lemma DeclinedCardNeverRollsBack() returns (w: World)
    ensures Reached(w) && Known(w, 0)
    ensures Pay.ChargeRefused(w.cases[0].account.books) && w.cases[0].place.pc == Refunding
    ensures w.ledger.claims[0].hold == Held && !CanRollBack(w, 0)
  {
    ReachCharging();
    var looking := Pay.Account(Pay.EMPTY_BOOKS, [Pay.ChargeLookup(10)]);
    var calling := Pay.Account(Pay.EMPTY_BOOKS, [Pay.ChargeCall(10)]);
    var declined := Pay.Account(Pay.EMPTY_BOOKS.(chargeKey := Some(Pay.Bound(1000, Pay.Refused(402)))),
                                [Pay.Threw(Pay.Rejected)]);
    Pays(Row(10, 2), Held, Unpaid(Charging, NONE_YET), Pay.Start(Pay.ChargeLookup(10)), looking);
    assert looking.attempts[0 := Pay.ChargeCall(10)] == calling.attempts;
    Pays(Row(10, 2), Held, Unpaid(Charging, looking), Pay.Advance(0, Pay.SMOOTH), calling);
    assert calling.attempts[0 := Pay.Threw(Pay.Rejected)] == declined.attempts;
    Pays(Row(10, 2), Held, Unpaid(Charging, calling),
         Pay.Advance(0, Pay.SMOOTH.(verdict := Pay.Decline(402))), declined);
    Places(Row(10, 2), Held, Unpaid(Charging, declined), Unreached, 0, Unpaid(Refunding, declined));
    w := Shop(Row(10, 2), Held, Unpaid(Refunding, declined));
    CanRollBackIff(w, 0);
  }
}
