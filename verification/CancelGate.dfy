/**
 * Which cancels the gate of `cancelOrder` may let in. The gate looks at the status only; this is
 * the exact condition, over everything that can happen afterwards, under which that does harm.
 */
module CancelGate {
  import opened Common
  import opened Inventory
  import opened Ledger
  import opened Orders
  import opened Saga
  import opened Platform
  import opened Guarantees
  import opened Outcomes
  import Pay = Payment

  /** The order's guards refused it what it should hold, or the row of `p` no longer adds up. */
  predicate Broken(w: World, o: nat, p: int) {
    && Known(w, o)
    && (w.cases[o].refused || (p in w.ledger.table && p in w.ledger.supplied && !RowBalanced(w.ledger, p)))
  }

  ghost predicate CanBreak(w: World, o: nat, p: int) {
    exists w' :: Leads(w, w') && Broken(w', o, p)
  }

  /** The order with a cancel workflow at its start. */
  function Started(w: World, o: nat): World
    requires o < |w.cases|
  {
    w.(cases := w.cases[o := CancelAt(w.cases[o], ReadingPayment)])
  }

  // ----- the place run does the same beside a cancel that has not moved -----

  lemma StartedStep(w: World, a: Action, o: nat)
    requires Known(w, o) && PlaceSide(a, o) && w.cases[o].cancel.pc != RefundingCancel
    ensures Known(Step(w, a), o) && Step(w, a).cases[o].cancel == w.cases[o].cancel
    ensures Step(Started(w, o), a) == Started(Step(w, a), o)
  {
    hide Matches, Applied, RunAll, Pay.AttemptStep;
    var w1 := Started(w, o);
    var c, c1 := w.cases[o], w1.cases[o];
    match a
    case PlaceNext(_, net, via) =>
      var granted := Granted(w.ledger, PlaceCall(c), net, w.ledger.claims[o].items);
      StartedPlaces(c, net, via, granted);
      assert w1.cases[o := PlaceStep(c1, net, via, granted)] ==
        w.cases[o := CancelAt(PlaceStep(c, net, via, granted), ReadingPayment)];
    case StartAttempt(_, attempt) => StartedPays(w, o, Pay.Start(attempt));
    case AdvanceAttempt(_, k, luck) => StartedPays(w, o, Pay.Advance(k, luck));
    case _ =>
  }

  lemma StartedPlaces(c: Case, net: Net, via: nat, granted: bool)
    ensures PlaceCall(CancelAt(c, ReadingPayment)) == PlaceCall(c)
    ensures PlaceStep(CancelAt(c, ReadingPayment), net, via, granted) ==
              CancelAt(PlaceStep(c, net, via, granted), ReadingPayment)
    ensures PlaceStep(c, net, via, granted).cancel == c.cancel
  {
  }

  lemma StartedPays(w: World, o: nat, e: Pay.Event)
    requires Known(w, o)
    ensures PayOne(Started(w, o), o, e) == Started(PayOne(w, o, e), o)
  {
    assert PayOne(Started(w, o), o, e).cases == Started(PayOne(w, o, e), o).cases;
  }

  lemma {:induction false} StartedExec(w: World, actions: seq<Action>, o: nat)
    requires Known(w, o) && w.cases[o].cancel.pc != RefundingCancel
    requires forall i :: 0 <= i < |actions| ==> PlaceSide(actions[i], o)
    ensures Known(Exec(w, actions), o)
    ensures Exec(Started(w, o), actions) == Started(Exec(w, actions), o)
    decreases |actions|
  {
    if actions != [] {
      StartedStep(w, actions[0], o);
      hide Step;
      StartedExec(Step(w, actions[0]), actions[1..], o);
    }
  }

  lemma StartedLeads(w: World, w': World, o: nat)
    requires Known(w, o) && w.cases[o].cancel.pc != RefundingCancel && PlaceSideLeads(w, w', o)
    ensures Known(w', o) && Leads(Started(w, o), Started(w', o))
  {
    var actions :| (forall i :: 0 <= i < |actions| ==> PlaceSide(actions[i], o)) && Exec(w, actions) == w';
    StartedExec(w, actions, o);
    PlaceSideDisciplined(Started(w, o), actions, o);
  }

  // ----- the way to a wrong row -----

  /** A cancel step that calls no inventory activity moves nothing but the cancel. */
  lemma QuietCancelLeads(w: World, o: nat, via: nat, listing: seq<Item>) returns (w': World)
    requires Known(w, o) && CancelCall(w.cases[o]).None?
    ensures Leads(w, w') && w'.ledger == w.ledger
    ensures w'.cases == w.cases[o := CancelStep(w.cases[o], Delivered, via, false, listing)]
  {
    w' := Step(w, CancelNext(o, Delivered, via, listing));
    StepLeads(w, CancelNext(o, Delivered, via, listing));
  }

  /** What the cancel finds: the order as it was, in a shop whose table adds up. */
  predicate Finds(w: World, c: Case, l: Ledger, o: nat) {
    && Known(w, o) && w.ledger == l
    && w.cases[o].row == c.row && w.cases[o].refused == c.refused
  }

  /** The refund of a cancel returns. */
  lemma RefundsLeads(w: World, o: nat) returns (w': World)
    requires Known(w, o) && w.cases[o].cancel.pc == RefundingCancel
    requires Pay.AccountOk(w.cases[o].account, w.cases[o].row.total) && w.cases[o].account.books.rows != []
    requires RefundOpen(w.cases[o].account.books)
    ensures Leads(w, w') && Finds(w', w.cases[o], w.ledger, o)
    ensures w'.cases[o].cancel == w.cases[o].cancel.(pc := ReadingItems)
  {
    hide Leads, PlaceSideLeads, Step, Pay.AccountRun, Pay.SmoothAttempt;
    var c := w.cases[o];
    var events := Pay.SmoothAttempt(c.account, Pay.RefundLookup(None), 4);
    Pay.SmoothRefundRun(c.account, None, c.row.total);
    SmoothStarts(c.account, Pay.RefundLookup(None), 4);
    PaymentsLead(w, o, events);
    var w1 := WithAccount(w, o, Pay.AccountRun(c.account, events, c.row.total));
    assert Refunded(w1.cases[o], |c.account.attempts|);
    w' := QuietCancelLeads(w1, o, |c.account.attempts|, []);
    LeadsTransitive(w, w1, w');
  }

  lemma SmoothStarts(acc: Pay.Account, a: Pay.Attempt, n: nat)
    ensures
      var events := Pay.SmoothAttempt(acc, a, n);
      forall i :: 0 <= i < |events| && events[i].Start? ==> events[i].attempt == a
  {
  }

  /** The payment id is read and, if there is one, the refund returns. */
  lemma ReadsPaymentLeads(w: World, o: nat) returns (w': World)
    requires Inv(w) && Known(w, o)
    requires w.cases[o].row.paymentId.Some? ==> !Pay.RefundRefused(w.cases[o].account.books)
    ensures Leads(Started(w, o), w') && Finds(w', w.cases[o], w.ledger, o)
    ensures w'.cases[o].cancel.pc == ReadingItems && w'.cases[o].cancel.paymentId == w.cases[o].row.paymentId
  {
    var c := w.cases[o];
    assert CaseOk(c, w.ledger.claims[o]);
    hide Leads, Step;
    var w1 := QuietCancelLeads(Started(w, o), o, 0, []);
    w' := w1;
    if c.row.paymentId.Some? {
      w' := RefundsLeads(w1, o);
      LeadsTransitive(Started(w, o), w1, w');
    }
  }

  /** A cancel whose payment id does not tell the hold leads to a wrong row, or to a refusal. */
  lemma UnfitCancelBreaks(w: World, o: nat, p: int)
    requires Inv(w) && Known(w, o) && p in w.ledger.table && Demand(ItemsOf(w.cases[o].row.lines), p) > 0
    requires !CancelFits(w.ledger.claims[o].hold, w.cases[o].row.paymentId)
    requires w.cases[o].row.paymentId.Some? ==> !Pay.RefundRefused(w.cases[o].account.books)
    ensures CanBreak(Started(w, o), o, p)
  {
    var c := w.cases[o];
    assert CaseOk(c, w.ledger.claims[o]);
    var items, act := ItemsOf(c.row.lines), CancelActivity(c.row.paymentId);
    var w1 := ReadsPaymentLeads(w, o);
    var w2 := QuietCancelLeads(w1, o, 0, items);
    LeadsTransitive(Started(w, o), w1, w2);
    var last := CancelNext(o, Delivered, 0, []);
    var w3 := Step(w2, last);
    StepLeads(w2, last);
    LeadsTransitive(Started(w, o), w2, w3);
    assert w2.ledger == w.ledger && CancelCall(w2.cases[o]) == Some(act) && w2.cases[o].cancel.listing == items;
    if RunAll(act, w.ledger.table, items).Some? {
      WrongHoldBreaksBalance(w.ledger, act, o, p);
      assert w3.ledger == Call(w.ledger, act, o);
    }
    assert Broken(w3, o, p);
  }

  /** Beside a live place run, rolling the order back first makes any cancel unfit. */
  lemma LiveCancelBreaks(w: World, o: nat, p: int)
    requires Inv(w) && Known(w, o) && p in w.ledger.table && Demand(ItemsOf(w.cases[o].row.lines), p) > 0
    requires PlaceLive(w.cases[o].place.pc) && RefundOpen(w.cases[o].account.books)
    ensures CanBreak(Started(w, o), o, p)
  {
    assert w.cases[o].cancel.pc != RefundingCancel by {
      assert CaseOk(w.cases[o], w.ledger.claims[o]);
    }
    hide Leads, Step, PlaceSideLeads, Started;
    var w1 := CatchLeads(w, o);
    var w2 := ReturnsLead(w1, o);
    ThenLeads(w, w1, w2, o);
    StartedLeads(w, w2, o);
    LeadsKeepsTable(w, w2, p);
    RolledBackIsOpen(w2, o);
    UnfitCancelBreaks(w2, o, p);
    var w3 :| Leads(Started(w2, o), w3) && Broken(w3, o, p);
    LeadsTransitive(Started(w, o), Started(w2, o), w3);
  }

  lemma RolledBackIsOpen(w: World, o: nat)
    requires Inv(w) && Known(w, o) && w.cases[o].place.pc == MarkingFailed
    ensures !Pay.RefundRefused(w.cases[o].account.books)
  {
    assert CaseOk(w.cases[o], w.ledger.claims[o]);
  }

  lemma {:induction false} ExecKeepsTable(w: World, actions: seq<Action>, p: int)
    requires p in w.ledger.table
    ensures p in Exec(w, actions).ledger.table
    decreases |actions|
  {
    if actions != [] {
      StepKeepsTable(w, actions[0], p);
      ExecKeepsTable(Step(w, actions[0]), actions[1..], p);
    }
  }

  lemma StepKeepsTable(w: World, a: Action, p: int)
    requires p in w.ledger.table
    ensures p in Step(w, a).ledger.table
  {
    if (a.PlaceNext? || a.CancelNext?) && Known(w, a.o) {
      var c := w.cases[a.o];
      var call := if a.PlaceNext? then PlaceCall(c) else CancelCall(c);
      var items := if a.PlaceNext? then w.ledger.claims[a.o].items else c.cancel.listing;
      if call.Some? {
        CommitMovesDemand(call.value, w.ledger.table, items);
      }
    }
  }

  lemma LeadsKeepsTable(w: World, w': World, p: int)
    requires Leads(w, w') && p in w.ledger.table
    ensures p in w'.ledger.table
  {
    var actions :| Disciplined(w, actions) && Exec(w, actions) == w';
    ExecKeepsTable(w, actions, p);
  }

  // ----- a refused refund keeps both workflows from the stock -----

  /**
   * Stripe refused for good, so the place run never gets past its charge or refund, and a cancel gets
   * to the stock only without a payment id, and then for an order that is still reserved.
   */
  predicate Stuck(c: Case, claim: Claim) {
    && claim.items == ItemsOf(c.row.lines) && !c.refused
    && Pay.AccountOk(c.account, c.row.total) && !RefundOpen(c.account.books)
    && c.place.attempted && (c.place.pc.Charging? || c.place.pc.Refunding? || c.place.pc.Abandoned?)
    && (c.place.pc.Charging? ==> Pay.ChargeRefused(c.account.books))
    && (c.row.paymentId.Some? ==> Pay.RefundRefused(c.account.books))
    && match c.cancel.pc
       case ReadingPayment => c.row.paymentId.None? ==> claim.hold == Held
       case RefundingCancel => c.row.paymentId.Some?
       case ReadingItems | UndoingCancel =>
         && c.row.paymentId.None? && c.cancel.paymentId.None? && claim.hold == Held
         && (c.cancel.pc == UndoingCancel ==> multiset(c.cancel.listing) == multiset(claim.items))
       case _ => true
  }

  lemma StuckPlaces(c: Case, claim: Claim, net: Net, via: nat, granted: bool)
    requires Stuck(c, claim)
    ensures PlaceCall(c).None? && Stuck(PlaceStep(c, net, via, granted), claim)
  {
    Pay.RefusalsStay(c.account.books, c.account.books, c.row.total);
    if via < |c.account.attempts| {
      assert Pay.AttemptOk(c.account.books, c.account.attempts[via], c.row.total);
    }
  }

  lemma StuckCancels(c: Case, claim: Claim, net: Net, via: nat, granted: bool, listing: seq<Item>)
    requires Stuck(c, claim)
    requires CancelCall(c).Some? && net == Delivered ==> granted
    ensures CancelCall(c).Some? ==>
              claim.hold == Before(CancelCall(c).value) && multiset(c.cancel.listing) == multiset(claim.items)
    ensures Stuck(CancelStep(c, net, via, granted, listing), ClaimAfter(claim, CancelCall(c), net, granted))
  {
    StuckIsUnrefunded(c, claim, via);
    hide Pay.AccountOk, RefundOpen, Pay.RefundRefused, Pay.ChargeRefused, Refunded;
  }

  lemma StuckIsUnrefunded(c: Case, claim: Claim, via: nat)
    requires Stuck(c, claim)
    ensures !Refunded(c, via)
  {
    Pay.RefusalsStay(c.account.books, c.account.books, c.row.total);
    if via < |c.account.attempts| {
      assert Pay.AttemptOk(c.account.books, c.account.attempts[via], c.row.total);
    }
  }

  lemma StuckPays(c: Case, claim: Claim, e: Pay.Event)
    requires Stuck(c, claim)
    ensures Stuck(c.(account := Pay.AccountStep(c.account, e, c.row.total)), claim)
  {
    Pay.AccountStepOk(c.account, e, c.row.total);
    Pay.RefusalsStay(c.account.books, Pay.AccountStep(c.account, e, c.row.total).books, c.row.total);
  }

  lemma StuckStep(w: World, a: Action, o: nat)
    requires Level(w) && Known(w, o) && Stuck(w.cases[o], w.ledger.claims[o])
    requires Fit(w, a) && Subject(a) == Some(o)
    ensures
      var w' := Step(w, a);
      Level(w') && OnlyOrder(w, w', o) && Stuck(w'.cases[o], w'.ledger.claims[o])
  {
    var c, claim := w.cases[o], w.ledger.claims[o];
    match a
    case PlaceNext(_, net, via) => StuckPlaces(c, claim, net, via, Granted(w.ledger, PlaceCall(c), net, claim.items));
    case CancelNext(_, net, via, listing) =>
      StuckCancels(c, claim, net, via, true, listing);
      AfterCallBalanced(w.ledger, CancelCall(c), net, o, c.cancel.listing);
      StuckCancels(c, claim, net, via, Granted(w.ledger, CancelCall(c), net, c.cancel.listing), listing);
    case StartAttempt(_, attempt) => StuckPays(c, claim, Pay.Start(attempt));
    case AdvanceAttempt(_, k, luck) => StuckPays(c, claim, Pay.Advance(k, luck));
    case StartCancel(_) =>
  }

  ghost predicate StuckWorld(w: World, o: nat) {
    && Level(w) && Known(w, o) && Stuck(w.cases[o], w.ledger.claims[o])
    && forall i :: 0 <= i < |w.cases| && i != o ==> OrderOk(w, i)
  }

  lemma StuckWorldStep(w: World, a: Action, o: nat)
    requires StuckWorld(w, o) && Fit(w, a)
    ensures StuckWorld(Step(w, a), o)
  {
    hide Stuck, CaseOk, Balanced;
    var who := Subject(a);
    if who == Some(o) {
      StuckStep(w, a, o);
      hide Step;
      forall i | 0 <= i < |Step(w, a).cases| && i != o ensures OrderOk(Step(w, a), i) {
        assert OrderOk(w, i);
      }
    } else {
      OthersLeaveOrder(w, a, o);
      if who.None? {
        SupplyStepKeeps(w, a);
        forall i | 0 <= i < |Step(w, a).cases| && i != o ensures OrderOk(Step(w, a), i) {
          assert i < |w.cases| ==> OrderOk(w, i);
        }
      } else if Known(w, who.value) {
        OwnStepKeeps(w, a, who.value);
        hide Step;
        forall i | 0 <= i < |Step(w, a).cases| && i != o ensures OrderOk(Step(w, a), i) {
          assert OrderOk(w, i);
        }
      }
    }
  }

  lemma {:induction false} StuckWorldExec(w: World, actions: seq<Action>, o: nat)
    requires StuckWorld(w, o) && Disciplined(w, actions)
    ensures StuckWorld(Exec(w, actions), o)
    decreases |actions|
  {
    if actions != [] {
      StuckWorldStep(w, actions[0], o);
      hide StuckWorld, Step;
      StuckWorldExec(Step(w, actions[0]), actions[1..], o);
    }
  }

  lemma StuckNeverBreaks(w: World, o: nat, p: int)
    requires StuckWorld(w, o)
    ensures !CanBreak(w, o, p)
  {
    forall w' | Leads(w, w') ensures !Broken(w', o, p) {
      var actions :| Disciplined(w, actions) && Exec(w, actions) == w';
      StuckWorldExec(w, actions, o);
    }
  }

  lemma StuckAtStart(w: World, o: nat)
    requires Inv(w) && OrderOk(w, o) && MayCancel(w.cases[o])
    requires
      if PlaceLive(w.cases[o].place.pc) then !RefundOpen(w.cases[o].account.books)
      else w.cases[o].row.paymentId.Some? && Pay.RefundRefused(w.cases[o].account.books)
    ensures StuckWorld(Started(w, o), o)
  {
    var c, claim := w.cases[o], w.ledger.claims[o];
    Pay.RefusalsStay(c.account.books, c.account.books, c.row.total);
    assert Stuck(CancelAt(c, ReadingPayment), claim);
    hide Stuck, CaseOk;
    forall i | 0 <= i < |w.cases| && i != o ensures OrderOk(Started(w, o), i) {
      assert OrderOk(w, i) by {
        assert CaseOk(w.cases[i], w.ledger.claims[i]);
      }
    }
  }

  lemma FitNeverBreaks(w: World, o: nat, p: int)
    requires Inv(w)
    ensures !CanBreak(w, o, p)
  {
    forall w' | Leads(w, w') ensures !Broken(w', o, p) {
      LeadsInv(w, w');
      InvIsUnbroken(w', o, p);
    }
  }

  lemma InvIsUnbroken(w: World, o: nat, p: int)
    requires Inv(w)
    ensures !Broken(w, o, p)
  {
    if Known(w, o) {
      assert CaseOk(w.cases[o], w.ledger.claims[o]);
    }
  }

  // ----- the exact condition -----

  /** Letting a cancel in at this state does harm. */
  predicate Harmful(c: Case, hold: Hold) {
    if PlaceLive(c.place.pc) then RefundOpen(c.account.books)
    else !CancelFits(hold, c.row.paymentId) && (c.row.paymentId.None? || !Pay.RefundRefused(c.account.books))
  }

  /**
   * When the gate lets a cancel in and no other is running, some continuation has a call refused or
   * leaves a row wrong if and only if: beside a live place run, neither Stripe key replays a refusal;
   * beside a dead one, the payment id does not tell the hold, and there is none or its refund can
   * still return.
   */
  lemma CancelBreaksIff(w: World, o: nat, p: int)
    requires Reached(w) && Known(w, o) && MayCancel(w.cases[o]) && !CancelLive(w.cases[o].cancel.pc)
    requires p in w.ledger.table && Demand(ItemsOf(w.cases[o].row.lines), p) > 0
    ensures CanBreak(Step(w, StartCancel(o)), o, p) <==> Harmful(w.cases[o], w.ledger.claims[o].hold)
  {
    ReachedInv(w);
    var c, hold := w.cases[o], w.ledger.claims[o].hold;
    assert OrderOk(w, o) by {
      assert CaseOk(c, w.ledger.claims[o]);
    }
    assert Step(w, StartCancel(o)) == Started(w, o);
    hide Inv, CaseOk, CanBreak, RefundOpen, Step;
    if Harmful(c, hold) {
      if PlaceLive(c.place.pc) {
        LiveCancelBreaks(w, o, p);
      } else {
        UnfitCancelBreaks(w, o, p);
      }
    } else if !PlaceLive(c.place.pc) && CancelFits(hold, c.row.paymentId) {
      StepKeepsInv(w, StartCancel(o));
      FitNeverBreaks(Started(w, o), o, p);
    } else {
      StuckAtStart(w, o);
      StuckNeverBreaks(Started(w, o), o, p);
    }
  }

  /**
   * Two cancels at once: for an order that the gate let in rightly and whose first cancel is under
   * way, giving back what both of them give back is refused or leaves the row wrong.
   */
  lemma SecondCancelGivesBackTwice(w: World, o: nat, p: int)
    requires Reached(w) && Known(w, o) && CancelTrying(w.cases[o].cancel.pc)
    requires CancelFits(w.ledger.claims[o].hold, w.cases[o].row.paymentId)
    requires p in w.ledger.table && Demand(ItemsOf(w.cases[o].row.lines), p) > 0
    ensures MayCancel(w.cases[o])
    ensures
      var act, items := CancelActivity(w.cases[o].row.paymentId), w.ledger.claims[o].items;
      var once := CallWith(w.ledger, act, o, items);
      var twice := CallWith(once, act, o, items);
      && Balanced(once) && once.claims[o].hold == Free
      && p in twice.table && p in twice.supplied
      && (RunAll(act, once.table, items).None? || !RowBalanced(twice, p))
  {
    ReachedInv(w);
    assert CaseOk(w.cases[o], w.ledger.claims[o]);
    var act := CancelActivity(w.cases[o].row.paymentId);
    NeverRefused(w.ledger, act, o);
    CallKeepsBalance(w.ledger, act, o);
    var once := Call(w.ledger, act, o);
    CommitMovesDemand(act, w.ledger.table, w.ledger.claims[o].items);
    if RunAll(act, once.table, once.claims[o].items).Some? {
      WrongHoldBreaksBalance(once, act, o, p);
    }
  }
}
