/**
 * The two order workflows as the straight-line programs they are: local variables and progress
 * flags, one activity call after the other, a catch block that reads the flags. Between any two
 * calls everybody else may act. Each program is proved to be a run of the step machine.
 */
module Workflows {
  import opened Common
  import opened Inventory
  import opened Ledger
  import opened Orders
  import opened Saga
  import opened Platform
  import opened Guarantees
  import Pay = Payment

  /** What the outside does around one activity call: the others' actions first, then its fate. */
  datatype Turn = Turn(meanwhile: seq<Action>, net: Net, via: nat)

  type Script = nat -> Turn

  /** Up to three attempts; a delivered one ends them. */
  predicate Retried(tries: seq<Turn>) {
    && 1 <= |tries| <= 3
    && forall i :: 0 <= i < |tries| - 1 ==> tries[i].net != Delivered
  }

  function LostCount(tries: seq<Turn>): nat {
    if tries == [] then 0
    else LostCount(tries[..|tries| - 1]) + if tries[|tries| - 1].net == Lost then 1 else 0
  }

  /** Nobody else acts around these attempts. */
  predicate Quiet(tries: seq<Turn>) { forall i :: 0 <= i < |tries| ==> tries[i].meanwhile == [] }

  predicate Inserts(items: seq<Item>, prices: Prices, net: Net) { AllPriced(items, prices) && net.TookEffect() }

  /** `w'` is `w` with `n` more orders, and the same stock. */
  predicate OnlyAdded(w: World, w': World, n: nat) {
    && |w'.cases| == |w.cases| + n && |w'.ledger.claims| == |w.ledger.claims| + n
    && w'.cases[..|w.cases|] == w.cases && w'.ledger.claims[..|w.ledger.claims|] == w.ledger.claims
    && w'.ledger.table == w.ledger.table
  }

  /** Different orders of these items, all younger than `w`, that nobody works on. */
  predicate LeftBehind(w: World, w': World, items: seq<Item>, left: seq<nat>) {
    && (forall i :: 0 <= i < |left| ==> |w.cases| <= left[i] && Orphan(w', left[i], items))
    && (forall i, j :: 0 <= i < j < |left| ==> left[i] < left[j])
  }

  /** The order stands at the start of its place workflow, with the prices of its creation. */
  predicate Begun(w: World, o: nat, items: seq<Item>, prices: Prices) {
    && Running(w, o) && ItemsOf(w.cases[o].row.lines) == items && PricedAs(w.cases[o].row, items, prices)
    && w.cases[o].place == PlaceRun(Reserving, false, false, false, None, None)
  }

  lemma OnlyAddedTwice(w: World, w1: World, w2: World, m: nat, n: nat)
    requires OnlyAdded(w, w1, m) && OnlyAdded(w1, w2, n)
    ensures OnlyAdded(w, w2, m + n)
  {
    assert w2.cases[..|w.cases|] == w2.cases[..|w1.cases|][..|w.cases|];
    assert w2.ledger.claims[..|w.ledger.claims|] == w2.ledger.claims[..|w1.ledger.claims|][..|w.ledger.claims|];
  }

  lemma LeftBehindStays(w: World, w1: World, w2: World, items: seq<Item>, left: seq<nat>)
    requires LeftBehind(w, w1, items, left) && Leads(w1, w2)
    ensures LeftBehind(w, w2, items, left)
    ensures forall i :: 0 <= i < |left| ==> left[i] < |w1.cases|
  {
    forall i | 0 <= i < |left| ensures Orphan(w2, left[i], items) {
      OrphanIsForGood(w1, w2, left[i], items);
    }
  }

  /** What one attempt to create the order does: it inserts a row whenever it takes effect. */
  ghost predicate Tried(w: World, w': World, items: seq<Item>, prices: Prices, turn: Turn, id: Option<nat>) {
    var inserted := if Inserts(items, prices, turn.net) then 1 else 0;
    && Leads(w, w') && |w'.cases| >= |w.cases| + inserted
    && (id.Some? <==> turn.net == Delivered && AllPriced(items, prices))
    && (id.Some? ==> id.value == |w'.cases| - 1 && Begun(w', id.value, items, prices))
    && (id.None? && inserted == 1 ==> Orphan(w', |w'.cases| - 1, items))
    && (turn.meanwhile == [] ==> OnlyAdded(w, w', inserted))
  }

  /** What all of them do. */
  ghost predicate Retries(w: World, w': World, items: seq<Item>, prices: Prices, tries: seq<Turn>, id: Option<nat>,
                          left: seq<nat>)
  {
    && Leads(w, w') && |w'.cases| >= |w.cases|
    && (id.Some? <==> tries != [] && tries[|tries| - 1].net == Delivered && AllPriced(items, prices))
    && |left| == (if AllPriced(items, prices) then LostCount(tries) else 0)
    && LeftBehind(w, w', items, left)
    && (id.Some? ==> |w.cases| <= id.value && id.value !in left && Begun(w', id.value, items, prices))
    && (Quiet(tries) ==> OnlyAdded(w, w', |left| + if id.Some? then 1 else 0))
    && (Quiet(tries) && id.Some? ==> id.value == |w.cases| + |left|)
  }

  /** One more attempt after failed ones. */
  lemma OneMoreTry(w: World, w1: World, w2: World, items: seq<Item>, prices: Prices, tries: seq<Turn>, turn: Turn,
                   left: seq<nat>, id: Option<nat>) returns (left': seq<nat>)
    requires Retries(w, w1, items, prices, tries, None, left)
    requires Tried(w1, w2, items, prices, turn, id)
    ensures Retries(w, w2, items, prices, tries + [turn], id, left')
  {
    hide Orphan, Begun, Leads, AllPriced;
    LeadsTransitive(w, w1, w2);
    LeftBehindStays(w, w1, w2, items, left);
    left' := if id.None? && Inserts(items, prices, turn.net) then left + [|w2.cases| - 1] else left;
    assert (tries + [turn])[..|tries|] == tries;
    if Quiet(tries + [turn]) {
      assert (tries + [turn])[|tries|] == turn;
      assert forall i :: 0 <= i < |tries| ==> (tries + [turn])[i] == tries[i];
      OnlyAddedTwice(w, w1, w2, |left|, if Inserts(items, prices, turn.net) then 1 else 0);
    }
  }

  lemma CreateInserts(w: World, items: seq<Item>, prices: Prices, net: Net)
    requires |w.cases| == |w.ledger.claims|
    ensures
      var w' := Step(w, Action.CreateOrder(items, prices, net));
      && OnlyAdded(w, w', if Inserts(items, prices, net) then 1 else 0)
      && (Inserts(items, prices, net) ==>
            var o := |w.cases|;
            && ItemsOf(w'.cases[o].row.lines) == items && PricedAs(w'.cases[o].row, items, prices)
            && (if net == Delivered
                then w'.cases[o].place == PlaceRun(Reserving, false, false, false, None, None)
                else Orphan(w', o, items)))
  {
    CreatedRoundTrip(items, prices);
  }

  lemma {:induction false} ExecCounts(w: World, actions: seq<Action>)
    ensures |Exec(w, actions).cases| >= |w.cases|
    decreases |actions|
  {
    if actions != [] {
      ExecCounts(Step(w, actions[0]), actions[1..]);
    }
  }

  /** Orders are never deleted. */
  lemma LeadsCounts(w: World, w': World)
    requires Leads(w, w')
    ensures |w'.cases| >= |w.cases|
  {
    var actions :| Disciplined(w, actions) && Exec(w, actions) == w';
    ExecCounts(w, actions);
  }

  /** The activities that the workflows call. */
  datatype ActivityCall =
    | ReserveInventory | ConfirmInventory | ReleaseInventory | RestoreInventory
    | ChargePayment | RefundPayment | CreateShipment
    | GetOrderTotalAmount | GetPaymentId | GetOrderItems | SavePaymentId
    | UpdateOrderStatus(status: OrderStatus)
    | Nothing

  /** The activity that the step machine of a place run is at. */
  function Awaited(p: PlaceRun): ActivityCall {
    match p.pc
    case Reserving => ReserveInventory
    case ReadingTotal => GetOrderTotalAmount
    case Charging => ChargePayment
    case SavingPayment => SavePaymentId
    case MarkingPaid => UpdateOrderStatus(PAID)
    case Confirming => ConfirmInventory
    case Shipping => CreateShipment
    case MarkingShipped => UpdateOrderStatus(SHIPPING)
    case Refunding => RefundPayment
    case Undoing => if p.confirmed then RestoreInventory else ReleaseInventory
    case MarkingFailed => UpdateOrderStatus(PLACE_FAILED)
    case Placed | PlaceFailed | Abandoned => Nothing
  }

  function CancelAwaited(r: CancelRun): ActivityCall {
    match r.pc
    case ReadingPayment => GetPaymentId
    case RefundingCancel => RefundPayment
    case ReadingItems => GetOrderItems
    case UndoingCancel => if r.paymentId.Some? then RestoreInventory else ReleaseInventory
    case MarkingCancelled => UpdateOrderStatus(CANCELLED)
    case MarkingCancelFailed => UpdateOrderStatus(CANCEL_FAILED)
    case Idle | Cancelled | CancelFailed | CancelAbandoned => Nothing
  }

  /** Where a place run stands after its call succeeded or failed. */
  predicate Followed(p: PlaceRun, ok: bool, p': PlaceRun) {
    if !ok then p' == p.(pc := if Forward(p.pc) then CatchPc(p) else Abandoned)
    else
      match p.pc
      case Reserving => p' == p.(pc := ReadingTotal, reserved := true)
      case ReadingTotal => p' == p.(pc := Charging, attempted := true, total := p'.total) && p'.total.Some?
      case Charging => p' == p.(pc := SavingPayment, paymentId := p'.paymentId) && p'.paymentId.Some?
      case SavingPayment => p' == p.(pc := MarkingPaid)
      case MarkingPaid => p' == p.(pc := Confirming)
      case Confirming => p' == p.(pc := Shipping, confirmed := true)
      case Shipping => p' == p.(pc := MarkingShipped)
      case MarkingShipped => p' == p.(pc := Placed)
      case Refunding => p' == p.(pc := Undoing)
      case Undoing => p' == p.(pc := MarkingFailed)
      case MarkingFailed => p' == p.(pc := PlaceFailed)
      case Placed | PlaceFailed | Abandoned => p' == p
  }

  predicate CancelFollowed(r: CancelRun, ok: bool, r': CancelRun) {
    if !ok then r' == r.(pc := if r.pc == MarkingCancelFailed then CancelAbandoned else MarkingCancelFailed)
    else
      match r.pc
      case ReadingPayment =>
        r' == r.(paymentId := r'.paymentId, pc := if r'.paymentId.Some? then RefundingCancel else ReadingItems)
      case RefundingCancel => r' == r.(pc := ReadingItems)
      case ReadingItems => r' == r.(pc := UndoingCancel, listing := r'.listing)
      case UndoingCancel => r' == r.(pc := MarkingCancelled)
      case MarkingCancelled => r' == r.(pc := Cancelled)
      case MarkingCancelFailed => r' == r.(pc := CancelFailed)
      case Idle | Cancelled | CancelFailed | CancelAbandoned => r' == r
  }

  predicate OwnStep(a: Action, o: nat) { (a.PlaceNext? || a.CancelNext?) && a.o == o }

  /** A workflow of `o` is between two of its calls. */
  predicate Running(w: World, o: nat) {
    Known(w, o) && (PlaceLive(w.cases[o].place.pc) || CancelLive(w.cases[o].cancel.pc))
  }

  lemma OthersLeaveRun(w: World, a: Action, o: nat)
    requires Inv(w) && Fit(w, a) && Running(w, o) && !OwnStep(a, o)
    ensures
      var c, c' := w.cases[o], Step(w, a).cases[o];
      Running(Step(w, a), o) && c'.place == c.place && c'.cancel == c.cancel && c'.row == c.row
  {
    if Subject(a) != Some(o) {
      OthersLeaveOrder(w, a, o);
    }
  }

  // ----- what the calls do, as functions of the world before and of their turns -----

  /** Anybody acts; what would break the discipline does not happen. */
  function OthersRun(w: World, actions: seq<Action>): World
    decreases |actions|
  {
    if actions == [] then w
    else OthersRun(if Fit(w, actions[0]) then Step(w, actions[0]) else w, actions[1..])
  }

  /** The same around a call for order `o`, whose workflow does nothing else meanwhile. */
  function AroundRun(w: World, o: nat, actions: seq<Action>): World
    decreases |actions|
  {
    if actions == [] then w
    else AroundRun(if Fit(w, actions[0]) && !OwnStep(actions[0], o) then Step(w, actions[0]) else w, o, actions[1..])
  }

  /** Everything that the discipline admits does happen. */
  lemma {:induction false} OthersActFreely(w: World, o: nat, actions: seq<Action>)
    requires Disciplined(w, actions)
    ensures OthersRun(w, actions) == Exec(w, actions)
    ensures (forall i :: 0 <= i < |actions| ==> !OwnStep(actions[i], o)) ==>
              AroundRun(w, o, actions) == Exec(w, actions)
    decreases |actions|
  {
    if actions != [] {
      OthersActFreely(Step(w, actions[0]), o, actions[1..]);
    }
  }

  /** The stock on hand covers the order. */
  predicate Covered(w: World, o: nat) {
    Known(w, o) && RunAll(Reserve, w.ledger.table, w.ledger.claims[o].items).Some?
  }

  /** Attempt `via` of the order's charges has returned. */
  predicate ChargeReturned(w: World, o: nat, via: nat) { Known(w, o) && Charged(w.cases[o], via) }

  predicate RefundReturned(w: World, o: nat, via: nat) { Known(w, o) && Refunded(w.cases[o], via) }

  /** The call that awaits in `w` succeeds: it is delivered, and what it asks for is there. */
  predicate Succeeds(w: World, o: nat, turn: Turn) {
    && Known(w, o) && turn.net == Delivered
    && match w.cases[o].place.pc
       case Reserving => Covered(w, o)
       case Charging => ChargeReturned(w, o, turn.via)
       case Refunding => RefundReturned(w, o, turn.via)
       case _ => true
  }

  predicate CancelSucceeds(w: World, o: nat, turn: Turn, listing: seq<Item>) {
    && Known(w, o) && turn.net == Delivered
    && (w.cases[o].cancel.pc == RefundingCancel ==> RefundReturned(w, o, turn.via))
    && (w.cases[o].cancel.pc == ReadingItems ==> multiset(listing) == multiset(ItemsOf(w.cases[o].row.lines)))
  }

  /** A charge or refund of which no attempt has returned fails without effect on the workflow. */
  function CallRun(w: World, o: nat, turn: Turn): World {
    var at := AroundRun(w, o, turn.meanwhile);
    var waits := Known(at, o) &&
      ((at.cases[o].place.pc == Charging && !ChargeReturned(at, o, turn.via)) ||
       (at.cases[o].place.pc == Refunding && !RefundReturned(at, o, turn.via)));
    Step(at, PlaceNext(o, if waits then Unreached else turn.net, turn.via))
  }

  function CancelCallRun(w: World, o: nat, turn: Turn, listing: seq<Item>): World {
    var at := AroundRun(w, o, turn.meanwhile);
    var waits := Known(at, o) &&
      ((at.cases[o].cancel.pc == RefundingCancel && !RefundReturned(at, o, turn.via)) ||
       (at.cases[o].cancel.pc == ReadingItems && multiset(listing) != multiset(ItemsOf(at.cases[o].row.lines))));
    Step(at, CancelNext(o, if waits then Unreached else turn.net, turn.via, listing))
  }

  /** All attempts to create the order. */
  function CreateRun(w: World, items: seq<Item>, prices: Prices, tries: seq<Turn>): World {
    if tries == [] then w
    else
      var last := tries[|tries| - 1];
      Step(OthersRun(CreateRun(w, items, prices, tries[..|tries| - 1]), last.meanwhile),
           Action.CreateOrder(items, prices, last.net))
  }

  // ----- the try block, call by call -----

  /** The world before call `n` of the try block, where the first call is number 1. */
  function WorldBefore(w: World, o: nat, script: Script, n: nat): World {
    if n <= 1 then w else CallRun(WorldBefore(w, o, script, n - 1), o, script(n - 1))
  }

  /** The world in which call `n` is made: the others have acted first. */
  function AtCall(w: World, o: nat, script: Script, n: nat): World {
    AroundRun(WorldBefore(w, o, script, n), o, script(n).meanwhile)
  }

  /** Call 1 reserves, call 3 charges; all the others fail only if they are not delivered. */
  predicate CallFails(w: World, o: nat, script: Script, n: nat) {
    || script(n).net != Delivered
    || (n == 1 && !Covered(AtCall(w, o, script, n), o))
    || (n == 3 && !ChargeReturned(AtCall(w, o, script, n), o, script(n).via))
  }

  /** All eight calls were delivered, the reservation was covered, and the charge had returned. */
  predicate Goes(w: World, o: nat, script: Script) {
    forall n: nat :: 1 <= n <= 8 ==> !CallFails(w, o, script, n)
  }

  /** Call `n` is the first of the eight that fails. */
  predicate FailsFirst(w: World, o: nat, script: Script, n: nat) {
    && 1 <= n <= 8 && CallFails(w, o, script, n)
    && forall k: nat :: 1 <= k < n ==> !CallFails(w, o, script, k)
  }

  /** The activity of call `n`. */
  function CallNumber(n: nat): ActivityCall {
    if n == 1 then ReserveInventory
    else if n == 2 then GetOrderTotalAmount
    else if n == 3 then ChargePayment
    else if n == 4 then SavePaymentId
    else if n == 5 then UpdateOrderStatus(PAID)
    else if n == 6 then ConfirmInventory
    else if n == 7 then CreateShipment
    else if n == 8 then UpdateOrderStatus(SHIPPING)
    else Nothing
  }

  predicate FlagsBefore(p: PlaceRun, n: nat) {
    p.reserved == (n > 1) && p.attempted == (n > 2) && p.confirmed == (n > 6)
  }

  /** The run is before call `n`, or past the last one. */
  predicate Stage(p: PlaceRun, n: nat) {
    FlagsBefore(p, n) && (if n <= 8 then Forward(p.pc) && Awaited(p) == CallNumber(n) != Nothing else p.pc == Placed)
  }

  /** Everything that holds before call `n`, if the calls before it went well. */
  ghost predicate InTry(w: World, first: World, start: World, o: nat, script: Script, n: nat) {
    && Inv(w) && Leads(start, w) && Known(w, o)
    && w == WorldBefore(first, o, script, n) && Stage(w.cases[o].place, n)
  }

  /** Everything that holds once call `n` has failed. */
  ghost predicate Caught(w: World, first: World, start: World, o: nat, script: Script, n: nat) {
    && Inv(w) && Leads(start, w) && Known(w, o)
    && w == WorldBefore(first, o, script, n + 1)
    && FlagsBefore(w.cases[o].place, n) && w.cases[o].place.pc == CatchPc(w.cases[o].place)
  }

  // ----- the catch block -----

  /** The refund that the catch block waits for returns; one that was never due counts as returned. */
  predicate RefundComes(w: World, o: nat, script: Script, chargeAttempted: bool) {
    chargeAttempted ==>
      && script(9).net == Delivered
      && RefundReturned(AroundRun(w, o, script(9).meanwhile), o, script(9).via)
  }

  predicate StockGoesBack(script: Script, inventoryReserved: bool) {
    (inventoryReserved ==> script(10).net == Delivered) && script(11).net == Delivered
  }

  function ReturnRun(w: World, o: nat, script: Script, inventoryReserved: bool): World {
    if !inventoryReserved then CallRun(w, o, script(11))
    else if script(10).net != Delivered then CallRun(w, o, script(10))
    else CallRun(CallRun(w, o, script(10)), o, script(11))
  }

  function CompensateRun(w: World, o: nat, script: Script, inventoryReserved: bool, chargeAttempted: bool): World {
    if !chargeAttempted then ReturnRun(w, o, script, inventoryReserved)
    else if !RefundComes(w, o, script, true) then CallRun(w, o, script(9))
    else ReturnRun(CallRun(w, o, script(9)), o, script, inventoryReserved)
  }

  // ----- the cancel's try block -----

  /** Call 1 refunds, call 2 lists the items; all the others fail only if they are not delivered. */
  predicate CancelCallFails(w: World, o: nat, listing: seq<Item>, script: Script, n: nat) {
    || !Known(w, o) || script(n).net != Delivered
    || (n == 1 && !RefundReturned(AroundRun(CancelCallRun(w, o, script(0), listing), o, script(1).meanwhile),
                                  o, script(1).via))
    || (n == 2 && multiset(listing) != multiset(ItemsOf(w.cases[o].row.lines)))
  }

  /**
   * Everything that the cancel needs: calls 0 and 2 to 4 were delivered, the listing is one of the
   * stored lines, and for an order with a payment id call 1 was delivered with a refund that had returned.
   */
  predicate CancelGoes(w: World, o: nat, listing: seq<Item>, script: Script)
    requires Known(w, o)
  {
    && script(0).net == Delivered && script(2).net == Delivered
    && script(3).net == Delivered && script(4).net == Delivered
    && multiset(listing) == multiset(ItemsOf(w.cases[o].row.lines))
    && (w.cases[o].row.paymentId.Some? ==>
          && script(1).net == Delivered
          && RefundReturned(AroundRun(CancelCallRun(w, o, script(0), listing), o, script(1).meanwhile),
                            o, script(1).via))
  }

  /** The calls that the cancel makes, up to and including the first that fails. */
  function CancelCalls(w: World, o: nat, listing: seq<Item>, script: Script, calls: seq<nat>): World
    decreases |calls|
  {
    if calls == [] then w
    else
      var after := CancelCallRun(w, o, script(calls[0]), listing);
      if CancelSucceeds(AroundRun(w, o, script(calls[0]).meanwhile), o, script(calls[0]), listing)
      then CancelCalls(after, o, listing, script, calls[1..]) else after
  }

  /** Without a payment id the refund, call 1, is left out. */
  function CancelCallNumbers(paymentId: Option<nat>): seq<nat> {
    if paymentId.Some? then [0, 1, 2, 3, 4] else [0, 2, 3, 4]
  }

  /** The calls still to come before call `n`. */
  function CallsFrom(n: nat, paymentId: Option<nat>): seq<nat> {
    if n == 0 then CancelCallNumbers(paymentId)
    else if n == 1 then [1, 2, 3, 4]
    else if n == 2 then [2, 3, 4]
    else if n == 3 then [3, 4]
    else if n == 4 then [4]
    else []
  }

  /** The activity of call `n`. */
  function CancelCallNumber(n: nat, paymentId: Option<nat>): ActivityCall {
    if n == 0 then GetPaymentId
    else if n == 1 then RefundPayment
    else if n == 2 then GetOrderItems
    else if n == 3 then if paymentId.Some? then RestoreInventory else ReleaseInventory
    else if n == 4 then UpdateOrderStatus(CANCELLED)
    else Nothing
  }

  function CancelPcNumber(n: nat): CancelPc {
    if n == 0 then ReadingPayment
    else if n == 1 then RefundingCancel
    else if n == 2 then ReadingItems
    else if n == 3 then UndoingCancel
    else if n == 4 then MarkingCancelled
    else Cancelled
  }

  /** Everything that holds before call `n`, if the calls before it went well. */
  ghost predicate InCancel(w: World, first: World, start: World, o: nat, listing: seq<Item>, script: Script, n: nat,
                           saved: Option<nat>)
  {
    && Inv(w) && Leads(start, w) && Known(w, o) && Known(first, o) && saved == first.cases[o].row.paymentId
    && w.cases[o].cancel.pc == CancelPcNumber(n) && (n <= 4 ==> w.cases[o].row == first.cases[o].row)
    && (n > 0 ==> w.cases[o].cancel.paymentId == saved)
    && (n == 0 ==> w == first) && (n == 1 ==> w == CancelCallRun(first, o, script(0), listing))
    && CancelCalls(first, o, listing, script, CancelCallNumbers(saved)) ==
         CancelCalls(w, o, listing, script, CallsFrom(n, saved))
  }

  /** Everything that holds once one of them has failed. */
  ghost predicate CancelCaught(w: World, first: World, start: World, o: nat, listing: seq<Item>, script: Script,
                               saved: Option<nat>)
  {
    && Inv(w) && Leads(start, w) && Known(w, o) && Known(first, o) && saved == first.cases[o].row.paymentId
    && w.cases[o].cancel.pc == MarkingCancelFailed
    && w == CancelCalls(first, o, listing, script, CancelCallNumbers(saved))
  }

  /** The call after call `n`. */
  function NextCancelCall(n: nat, paymentId: Option<nat>): nat { if n == 0 && paymentId.None? then 2 else n + 1 }

  class Deployment {
    var world: World

    constructor ()
      ensures world == EMPTY_WORLD
    {
      world := EMPTY_WORLD;
    }

    method Perform(a: Action, ghost start: World)
      requires Inv(world) && Fit(world, a) && Leads(start, world)
      modifies this
      ensures world == Step(old(world), a)
      ensures Inv(world) && Leads(start, world)
    {
      StepKeepsInv(world, a);
      StepLeads(world, a);
      LeadsTransitive(start, world, Step(world, a));
      world := Step(world, a);
    }

    /** The others act; what would break the discipline, or belongs to this workflow, does not happen. */
    method Meanwhile(o: nat, actions: seq<Action>, ghost start: World)
      requires Inv(world) && Leads(start, world) && Running(world, o)
      modifies this
      ensures Inv(world) && Leads(start, world) && Running(world, o)
      ensures world == AroundRun(old(world), o, actions)
      ensures world.cases[o].place == old(world.cases[o].place)
      ensures world.cases[o].cancel == old(world.cases[o].cancel)
      ensures world.cases[o].row == old(world.cases[o].row)
    {
      for i := 0 to |actions|
        invariant Inv(world) && Leads(start, world) && Running(world, o)
        invariant AroundRun(world, o, actions[i..]) == AroundRun(old(world), o, actions)
        invariant world.cases[o].place == old(world.cases[o].place)
        invariant world.cases[o].cancel == old(world.cases[o].cancel)
        invariant world.cases[o].row == old(world.cases[o].row)
      {
        assert actions[i..][1..] == actions[i + 1..];
        if Fit(world, actions[i]) && !OwnStep(actions[i], o) {
          OthersLeaveRun(world, actions[i], o);
          Perform(actions[i], start);
        }
      }
    }

    /** Anybody acts; what would break the discipline does not happen. */
    method Others(actions: seq<Action>)
      requires Inv(world)
      modifies this
      ensures Inv(world) && Leads(old(world), world)
      ensures world == OthersRun(old(world), actions)
    {
      ghost var start := world;
      NoActionLeads(start);
      for i := 0 to |actions|
        invariant Inv(world) && Leads(start, world)
        invariant OthersRun(world, actions[i..]) == OthersRun(start, actions)
      {
        assert actions[i..][1..] == actions[i + 1..];
        if Fit(world, actions[i]) {
          Perform(actions[i], start);
        }
      }
    }

    method TryCreate(items: seq<Item>, prices: Prices, turn: Turn) returns (id: Option<nat>)
      requires Inv(world) && NonNegative(items)
      modifies this
      ensures Inv(world) && Tried(old(world), world, items, prices, turn, id)
      ensures world == Step(OthersRun(old(world), turn.meanwhile), Action.CreateOrder(items, prices, turn.net))
    {
      Others(turn.meanwhile);
      ghost var before := world;
      CreatedRoundTrip(items, prices);
      CreateInserts(world, items, prices, turn.net);
      id := if turn.net == Delivered && Created(items, prices).Some? then Some(|world.cases|) else None;
      Perform(Action.CreateOrder(items, prices, turn.net), old(world));
      LeadsCounts(old(world), before);
    }

    /**
     * `createOrder` under its retry policy. Nothing tells a repeated insert from a new one, so each
     * attempt whose acknowledgement was lost leaves an order of its own behind; `left` lists them.
     */
    method CreateOrder(items: seq<Item>, prices: Prices, tries: seq<Turn>)
      returns (id: Option<nat>, ghost left: seq<nat>)
      requires Inv(world) && NonNegative(items) && Retried(tries)
      modifies this
      ensures Inv(world) && Retries(old(world), world, items, prices, tries, id, left)
      ensures world == CreateRun(old(world), items, prices, tries)
    {
      ghost var start := world;
      NoActionLeads(start);
      id, left := None, [];
      assert Retries(start, world, items, prices, tries[..0], id, left);
      for i := 0 to |tries|
        invariant Inv(world) && Retries(start, world, items, prices, tries[..i], id, left)
        invariant world == CreateRun(start, items, prices, tries[..i])
      {
        assert tries[..i + 1] == tries[..i] + [tries[i]] && tries[..i + 1][..i] == tries[..i];
        hide Inv, Retries, Tried, AllPriced, Step, OthersRun;
        ghost var before := world;
        id := TryCreate(items, prices, tries[i]);
        left := OneMoreTry(start, before, world, items, prices, tries[..i], tries[i], left, id);
      }
      assert tries[..|tries|] == tries;
    }

    /** One activity call of the place workflow; a charge or refund fails if no attempt has returned. */
    method Call(o: nat, what: ActivityCall, turn: Turn, ghost start: World) returns (ok: bool)
      requires Inv(world) && Leads(start, world) && Running(world, o)
      requires what != Nothing && what == Awaited(world.cases[o].place)
      modifies this
      ensures Inv(world) && Leads(start, world) && Known(world, o)
      ensures Followed(old(world.cases[o].place), ok, world.cases[o].place)
      ensures world == CallRun(old(world), o, turn)
      ensures
        var at := AroundRun(old(world), o, turn.meanwhile);
        && (ok <==> Succeeds(at, o, turn))
        && Known(at, o) && at.cases[o].place == old(world.cases[o].place)
    {
      Meanwhile(o, turn.meanwhile, start);
      var c := world.cases[o];
      var net := turn.net;
      if (what == ChargePayment && !Charged(c, turn.via)) || (what == RefundPayment && !Refunded(c, turn.via)) {
        net := Unreached;
      }
      var call := PlaceCall(c);
      ok := net == Delivered && (call.Some? ==> Granted(world.ledger, call, net, world.ledger.claims[o].items));
      CallGoesOn(old(world), world, o, turn, net, ok);
      hide AroundRun, CallRun, Followed, Succeeds, Step, Inv, Leads, Awaited;
      Perform(PlaceNext(o, net, turn.via), start);
    }

    /** Call `n` of the try block. */
    method NumberedCall(o: nat, what: ActivityCall, script: Script, n: nat, ghost first: World, ghost start: World)
      returns (ok: bool)
      requires 1 <= n <= 8 && what == CallNumber(n)
      requires InTry(world, first, start, o, script, n)
      modifies this
      ensures ok <==> !CallFails(first, o, script, n)
      ensures if ok then InTry(world, first, start, o, script, n + 1) else Caught(world, first, start, o, script, n)
    {
      hide Inv, Leads, CallRun, AroundRun, Covered, ChargeReturned;
      ok := Call(o, what, script(n), start);
    }

    /** One activity call of the cancel workflow. */
    method CancelCall(o: nat, what: ActivityCall, turn: Turn, listing: seq<Item>, ghost start: World) returns (ok: bool)
      requires Inv(world) && Leads(start, world) && Running(world, o)
      requires what != Nothing && what == CancelAwaited(world.cases[o].cancel)
      modifies this
      ensures Inv(world) && Leads(start, world) && Known(world, o)
      ensures CancelFollowed(old(world.cases[o].cancel), ok, world.cases[o].cancel)
      ensures world == CancelCallRun(old(world), o, turn, listing)
      ensures
        var at := AroundRun(old(world), o, turn.meanwhile);
        && (ok <==> CancelSucceeds(at, o, turn, listing))
        && Known(at, o) && at.cases[o].cancel == old(world.cases[o].cancel)
        && at.cases[o].row == old(world.cases[o].row)
      ensures !what.UpdateOrderStatus? ==> world.cases[o].row == old(world.cases[o].row)
      ensures what == GetPaymentId && ok ==> world.cases[o].cancel.paymentId == old(world.cases[o].row.paymentId)
    {
      Meanwhile(o, turn.meanwhile, start);
      var c := world.cases[o];
      var net := turn.net;
      if (what == RefundPayment && !Refunded(c, turn.via)) ||
         (what == GetOrderItems && multiset(listing) != multiset(ItemsOf(c.row.lines))) {
        net := Unreached;
      }
      var call := Saga.CancelCall(c);
      ok := net == Delivered && (call.Some? ==> Granted(world.ledger, call, net, c.cancel.listing));
      CancelCallGoesOn(old(world), world, o, turn, listing, net, ok);
      hide AroundRun, CancelCallRun, CancelFollowed, CancelSucceeds, Step, Inv, Leads, CancelAwaited;
      Perform(CancelNext(o, net, turn.via, listing), start);
    }

    /** Call `n` of the cancel's try block. */
    method NumberedCancelCall(o: nat, what: ActivityCall, listing: seq<Item>, script: Script, n: nat,
                              ghost first: World, ghost start: World, ghost saved: Option<nat>) returns (ok: bool)
      requires n <= 4 && InCancel(world, first, start, o, listing, script, n, saved)
      requires what == CancelCallNumber(n, saved)
      modifies this
      ensures ok <==> !CancelCallFails(first, o, listing, script, n)
      ensures ok ==> InCancel(world, first, start, o, listing, script, NextCancelCall(n, saved), saved)
      ensures ok ==> Known(world, o) && world.cases[o].cancel.paymentId == saved
      ensures !ok ==> CancelCaught(world, first, start, o, listing, script, saved)
    {
      ghost var w := world;
      InCancelIsRunning(w, first, start, o, listing, script, n, saved);
      hide Inv, Leads, CancelCallRun, AroundRun, CancelCalls, RefundReturned, InCancel, CancelCaught,
           CancelCallFails, CancelFollowed, CancelSucceeds;
      ok := CancelCall(o, what, script(n), listing, start);
      CancelStageGoesOn(w, world, first, start, o, listing, script, n, saved, ok);
    }
  }

  lemma InCancelIsRunning(w: World, first: World, start: World, o: nat, listing: seq<Item>, script: Script, n: nat,
                          saved: Option<nat>)
    requires n <= 4 && InCancel(w, first, start, o, listing, script, n, saved)
    ensures Inv(w) && Leads(start, w) && Running(w, o)
    ensures CancelAwaited(w.cases[o].cancel) == CancelCallNumber(n, saved) != Nothing
  {
    hide Inv, Leads, CancelCalls;
  }

  lemma CancelStageGoesOn(w: World, w': World, first: World, start: World, o: nat, listing: seq<Item>,
                          script: Script, n: nat, saved: Option<nat>, ok: bool)
    requires n <= 4 && InCancel(w, first, start, o, listing, script, n, saved)
    requires Inv(w') && Leads(start, w') && Known(w', o)
    requires w' == CancelCallRun(w, o, script(n), listing)
    requires CancelFollowed(w.cases[o].cancel, ok, w'.cases[o].cancel)
    requires
      var at := AroundRun(w, o, script(n).meanwhile);
      && (ok <==> CancelSucceeds(at, o, script(n), listing))
      && Known(at, o) && at.cases[o].cancel == w.cases[o].cancel && at.cases[o].row == w.cases[o].row
    requires n <= 3 ==> w'.cases[o].row == w.cases[o].row
    requires n == 0 && ok ==> w'.cases[o].cancel.paymentId == w.cases[o].row.paymentId
    ensures ok <==> !CancelCallFails(first, o, listing, script, n)
    ensures ok ==> InCancel(w', first, start, o, listing, script, NextCancelCall(n, saved), saved)
    ensures ok ==> w'.cases[o].cancel.paymentId == saved
    ensures !ok ==> CancelCaught(w', first, start, o, listing, script, saved)
  {
    hide Inv, Leads, CancelCallRun, AroundRun, CancelCalls, RefundReturned;
    CancelCallsUnfold(w, o, listing, script, n, saved);
  }

  lemma CancelCallsUnfold(w: World, o: nat, listing: seq<Item>, script: Script, n: nat, paymentId: Option<nat>)
    requires n <= 4
    ensures
      var after := CancelCallRun(w, o, script(n), listing);
      CancelCalls(w, o, listing, script, CallsFrom(n, paymentId)) ==
      if CancelSucceeds(AroundRun(w, o, script(n).meanwhile), o, script(n), listing)
      then CancelCalls(after, o, listing, script, CallsFrom(NextCancelCall(n, paymentId), paymentId)) else after
  {
    hide CancelSucceeds, CancelCallRun, AroundRun;
    assert CallsFrom(n, paymentId)[1..] == CallsFrom(NextCancelCall(n, paymentId), paymentId);
  }

  lemma CancelCallsAreGranted(w: World, o: nat, net: Net)
    requires Inv(w) && Known(w, o)
    ensures
      var c := w.cases[o];
      CancelCall(c).Some? && net == Delivered ==> Granted(w.ledger, CancelCall(c), net, c.cancel.listing)
  {
    assert CaseOk(w.cases[o], w.ledger.claims[o]);
    if CancelCall(w.cases[o]).Some? {
      CancelCallFitsHold(w.cases[o], w.ledger.claims[o]);
      AfterCallBalanced(w.ledger, CancelCall(w.cases[o]), net, o, w.cases[o].cancel.listing);
    }
  }

  /** What the method computes is what its specification says, `at` being the world after the others. */
  lemma CallGoesOn(w: World, at: World, o: nat, turn: Turn, net: Net, ok: bool)
    requires at == AroundRun(w, o, turn.meanwhile) && Inv(at) && Known(at, o) && PlaceLive(at.cases[o].place.pc)
    requires
      var c := at.cases[o];
      && net == (if (c.place.pc == Charging && !Charged(c, turn.via)) ||
                    (c.place.pc == Refunding && !Refunded(c, turn.via))
                 then Unreached else turn.net)
      && ok == (net == Delivered &&
                (PlaceCall(c).Some? ==> Granted(at.ledger, PlaceCall(c), net, at.ledger.claims[o].items)))
    ensures
      var next := Step(at, PlaceNext(o, net, turn.via));
      && next == CallRun(w, o, turn) && Known(next, o)
      && Followed(at.cases[o].place, ok, next.cases[o].place) && (ok <==> Succeeds(at, o, turn))
  {
    CallsAreGranted(at, o, net);
    hide Inv, AroundRun, RunAll, PlaceStep, Followed;
    var c := at.cases[o];
    StepFollowed(c, net, turn.via, Granted(at.ledger, PlaceCall(c), net, at.ledger.claims[o].items));
  }

  lemma CancelCallGoesOn(w: World, at: World, o: nat, turn: Turn, listing: seq<Item>, net: Net, ok: bool)
    requires at == AroundRun(w, o, turn.meanwhile) && Inv(at) && Known(at, o) && CancelLive(at.cases[o].cancel.pc)
    requires
      var c := at.cases[o];
      && net == (if (c.cancel.pc == RefundingCancel && !Refunded(c, turn.via)) ||
                    (c.cancel.pc == ReadingItems && multiset(listing) != multiset(ItemsOf(c.row.lines)))
                 then Unreached else turn.net)
      && ok == (net == Delivered &&
                (CancelCall(c).Some? ==> Granted(at.ledger, CancelCall(c), net, c.cancel.listing)))
    ensures
      var next := Step(at, CancelNext(o, net, turn.via, listing));
      && next == CancelCallRun(w, o, turn, listing) && Known(next, o)
      && CancelFollowed(at.cases[o].cancel, ok, next.cases[o].cancel)
      && (ok <==> CancelSucceeds(at, o, turn, listing))
      && (!CancelAwaited(at.cases[o].cancel).UpdateOrderStatus? ==> next.cases[o].row == at.cases[o].row)
      && (at.cases[o].cancel.pc == ReadingPayment && ok ==> next.cases[o].cancel.paymentId == at.cases[o].row.paymentId)
  {
    CancelCallsAreGranted(at, o, net);
    hide Inv, AroundRun, RunAll, CancelStep, CancelFollowed;
    var c := at.cases[o];
    CancelStepFollowed(c, net, turn.via, Granted(at.ledger, CancelCall(c), net, c.cancel.listing), listing);
  }

  lemma CallsAreGranted(w: World, o: nat, net: Net)
    requires Inv(w) && Known(w, o)
    ensures
      var call := PlaceCall(w.cases[o]);
      call.Some? && call != Some(Reserve) && net == Delivered ==>
        Granted(w.ledger, call, net, w.ledger.claims[o].items)
    ensures w.cases[o].place.pc == SavingPayment ==> w.cases[o].place.paymentId.Some?
  {
    assert CaseOk(w.cases[o], w.ledger.claims[o]);
    if PlaceCall(w.cases[o]).Some? {
      PlaceCallFitsHold(w.cases[o], w.ledger.claims[o]);
      AfterCallBalanced(w.ledger, PlaceCall(w.cases[o]), net, o, w.ledger.claims[o].items);
    }
  }

  lemma StepFollowed(c: Case, net: Net, via: nat, granted: bool)
    requires PlaceLive(c.place.pc)
    requires c.place.pc == SavingPayment ==> c.place.paymentId.Some?
    requires c.place.pc == Charging && net == Delivered ==> Charged(c, via)
    requires c.place.pc == Refunding && net == Delivered ==> Refunded(c, via)
    ensures Followed(c.place, net == Delivered && (PlaceCall(c).Some? ==> granted),
                     PlaceStep(c, net, via, granted).place)
  {
  }

  lemma CancelStepFollowed(c: Case, net: Net, via: nat, granted: bool, listing: seq<Item>)
    requires CancelLive(c.cancel.pc)
    requires c.cancel.pc == RefundingCancel && net == Delivered ==> Refunded(c, via)
    requires c.cancel.pc == ReadingItems && net == Delivered ==> multiset(listing) == multiset(ItemsOf(c.row.lines))
    ensures CancelFollowed(c.cancel, net == Delivered && (CancelCall(c).Some? ==> granted),
                           CancelStep(c, net, via, granted, listing).cancel)
    ensures !c.cancel.pc.MarkingCancelled? && !c.cancel.pc.MarkingCancelFailed? ==>
              CancelStep(c, net, via, granted, listing).row == c.row
    ensures c.cancel.pc == ReadingPayment && net == Delivered ==>
              CancelStep(c, net, via, granted, listing).cancel.paymentId == c.row.paymentId
  {
  }

  // ----- placeOrderWorkflow -----

  datatype PlaceOutcome =
    | NotCreated
    | Shipped(orderId: nat)
    | RolledBack(orderId: nat)
    | CompensationFailed(orderId: nat, refundReturned: bool)

  /**
   * The try block. It returns the local variables as the catch block finds them, and `done` when
   * there is nothing to catch; otherwise `failed` is the call that failed.
   */
  method TryPlace(d: Deployment, o: nat, script: Script, ghost start: World)
    returns (done: bool, inventoryReserved: bool, chargeAttempted: bool, inventoryConfirmed: bool, ghost failed: nat)
    requires Inv(d.world) && Leads(start, d.world) && Running(d.world, o)
    requires d.world.cases[o].place == PlaceRun(Reserving, false, false, false, None, None)
    modifies d
    ensures Inv(d.world) && Leads(start, d.world) && Known(d.world, o)
    ensures
      var p := d.world.cases[o].place;
      && p.reserved == inventoryReserved && p.attempted == chargeAttempted && p.confirmed == inventoryConfirmed
      && p.pc == (if done then Placed else CatchPc(p))
    ensures done <==> Goes(old(d.world), o, script)
    ensures done ==> d.world == WorldBefore(old(d.world), o, script, 9)
    ensures !done ==>
      && FailsFirst(old(d.world), o, script, failed) && d.world == WorldBefore(old(d.world), o, script, failed + 1)
      && inventoryReserved == (failed > 1) && chargeAttempted == (failed > 2) && inventoryConfirmed == (failed > 6)
  {
    hide InTry, Caught, CallFails, WorldBefore, Inv, Leads;
    ghost var w := d.world;
    TryBegins(w, start, o, script);
    done, inventoryReserved, chargeAttempted, inventoryConfirmed, failed := false, false, false, false, 1;
    var ok;
    label try: {
      ok := d.NumberedCall(o, ReserveInventory, script, 1, w, start);
      if !ok { break try; }
      inventoryReserved, failed := true, 2;
      ok := d.NumberedCall(o, GetOrderTotalAmount, script, 2, w, start);
      if !ok { break try; }
      chargeAttempted, failed := true, 3;
      ok := d.NumberedCall(o, ChargePayment, script, 3, w, start);
      if !ok { break try; }
      failed := 4;
      ok := d.NumberedCall(o, SavePaymentId, script, 4, w, start);
      if !ok { break try; }
      failed := 5;
      ok := d.NumberedCall(o, UpdateOrderStatus(PAID), script, 5, w, start);
      if !ok { break try; }
      failed := 6;
      ok := d.NumberedCall(o, ConfirmInventory, script, 6, w, start);
      if !ok { break try; }
      inventoryConfirmed, failed := true, 7;
      ok := d.NumberedCall(o, CreateShipment, script, 7, w, start);
      if !ok { break try; }
      failed := 8;
      ok := d.NumberedCall(o, UpdateOrderStatus(SHIPPING), script, 8, w, start);
    }
    done := ok;
    TryEnds(d.world, w, start, o, script, failed);
  }

  lemma TryBegins(w: World, start: World, o: nat, script: Script)
    requires Inv(w) && Leads(start, w) && Known(w, o)
    requires w.cases[o].place == PlaceRun(Reserving, false, false, false, None, None)
    ensures InTry(w, w, start, o, script, 1)
  {
  }

  lemma TryEnds(w: World, first: World, start: World, o: nat, script: Script, n: nat)
    ensures InTry(w, first, start, o, script, 9) ==>
              && Inv(w) && Leads(start, w) && Known(w, o) && w == WorldBefore(first, o, script, 9)
              && FlagsBefore(w.cases[o].place, 9) && w.cases[o].place.pc == Placed
    ensures Caught(w, first, start, o, script, n) ==>
              && Inv(w) && Leads(start, w) && Known(w, o) && w == WorldBefore(first, o, script, n + 1)
              && FlagsBefore(w.cases[o].place, n) && w.cases[o].place.pc == CatchPc(w.cases[o].place)
  {
    hide Inv, Leads, WorldBefore;
  }

  lemma FlagsNest(w: World, o: nat)
    requires Inv(w) && Known(w, o)
    ensures w.cases[o].place.confirmed ==> w.cases[o].place.attempted
    ensures w.cases[o].place.attempted ==> w.cases[o].place.reserved
  {
    assert CaseOk(w.cases[o], w.ledger.claims[o]);
  }

  /** The catch block: refund, then the stock, then the status, as far as the flags say. */
  method Compensate(d: Deployment, o: nat, script: Script, ghost start: World,
                    inventoryReserved: bool, chargeAttempted: bool, inventoryConfirmed: bool)
    returns (ok: bool, refundReturned: bool)
    requires Inv(d.world) && Leads(start, d.world) && Known(d.world, o)
    requires
      var p := d.world.cases[o].place;
      && p.reserved == inventoryReserved && p.attempted == chargeAttempted && p.confirmed == inventoryConfirmed
      && p.pc == CatchPc(p)
    modifies d
    ensures Inv(d.world) && Leads(start, d.world) && Known(d.world, o)
    ensures d.world.cases[o].place.pc == if ok then PlaceFailed else Abandoned
    ensures refundReturned <==> RefundComes(old(d.world), o, script, chargeAttempted)
    ensures ok <==> refundReturned && StockGoesBack(script, inventoryReserved)
    ensures d.world == CompensateRun(old(d.world), o, script, inventoryReserved, chargeAttempted)
  {
    FlagsNest(d.world, o);
    hide Inv, Leads, CallRun, AroundRun, ReturnRun, StockGoesBack;
    ok, refundReturned := true, true;
    if chargeAttempted {
      refundReturned := d.Call(o, RefundPayment, script(9), start);
    }
    ok := refundReturned;
    if ok {
      ok := ReturnStock(d, o, script, start, inventoryReserved, inventoryConfirmed);
    }
  }

  method ReturnStock(d: Deployment, o: nat, script: Script, ghost start: World,
                     inventoryReserved: bool, inventoryConfirmed: bool)
    returns (ok: bool)
    requires Inv(d.world) && Leads(start, d.world) && Known(d.world, o)
    requires
      var p := d.world.cases[o].place;
      && p.reserved == inventoryReserved && p.confirmed == inventoryConfirmed
      && p.pc == (if p.reserved then Undoing else MarkingFailed)
    modifies d
    ensures Inv(d.world) && Leads(start, d.world) && Known(d.world, o)
    ensures d.world.cases[o].place.pc == if ok then PlaceFailed else Abandoned
    ensures ok <==> StockGoesBack(script, inventoryReserved)
    ensures d.world == ReturnRun(old(d.world), o, script, inventoryReserved)
  {
    FlagsNest(d.world, o);
    hide Inv, Leads, CallRun, AroundRun, Followed, Succeeds;
    ok := true;
    if inventoryReserved {
      ok := UndoStock(d, o, script(10), start, inventoryConfirmed);
    }
    if ok {
      ghost var w := d.world;
      ok := d.Call(o, UpdateOrderStatus(PLACE_FAILED), script(11), start);
      StockCallFollowed(w, d.world, o, script(11), ok);
    }
  }

  /** Restore what was confirmed, release what was only reserved. */
  method UndoStock(d: Deployment, o: nat, turn: Turn, ghost start: World, inventoryConfirmed: bool) returns (ok: bool)
    requires Inv(d.world) && Leads(start, d.world) && Known(d.world, o)
    requires d.world.cases[o].place.pc == Undoing && d.world.cases[o].place.confirmed == inventoryConfirmed
    modifies d
    ensures Inv(d.world) && Leads(start, d.world) && Known(d.world, o)
    ensures d.world.cases[o].place.pc == if ok then MarkingFailed else Abandoned
    ensures ok <==> turn.net == Delivered
    ensures d.world == CallRun(old(d.world), o, turn)
  {
    hide Inv, Leads, CallRun, AroundRun, Followed, Succeeds;
    ghost var w := d.world;
    if inventoryConfirmed {
      ok := d.Call(o, RestoreInventory, turn, start);
    } else {
      ok := d.Call(o, ReleaseInventory, turn, start);
    }
    StockCallFollowed(w, d.world, o, turn, ok);
  }

  /** The calls that return the stock and write the status fail only if they are not delivered. */
  lemma StockCallFollowed(w: World, w': World, o: nat, turn: Turn, ok: bool)
    requires Known(w, o) && Known(w', o)
    requires w.cases[o].place.pc == Undoing || w.cases[o].place.pc == MarkingFailed
    requires Followed(w.cases[o].place, ok, w'.cases[o].place)
    requires
      var at := AroundRun(w, o, turn.meanwhile);
      Known(at, o) && at.cases[o].place == w.cases[o].place && (ok <==> Succeeds(at, o, turn))
    ensures ok <==> turn.net == Delivered
    ensures w'.cases[o].place.pc ==
              if !ok then Abandoned else if w.cases[o].place.pc == Undoing then MarkingFailed else PlaceFailed
  {
    hide AroundRun;
  }

  /**
   * The whole workflow, whatever fails and whoever acts meanwhile: it is a disciplined run, and its
   * outcome says exactly what became of the order's stock and money. Once the refund has returned,
   * only an undelivered call can keep the compensation from finishing: stock never does. Besides its
   * order, it leaves one empty PENDING order behind for every lost acknowledgement of a creation.
   */
  method PlaceOrderWorkflow(d: Deployment, items: seq<Item>, allActive: bool, prices: Prices,
                            tries: seq<Turn>, script: Script)
    returns (outcome: PlaceOutcome, ghost left: seq<nat>, ghost failed: nat)
    requires Inv(d.world) && NonNegative(items) && Retried(tries)
    modifies d
    ensures Inv(d.world) && Leads(old(d.world), d.world)
    ensures |left| == (if allActive && AllPriced(items, prices) then LostCount(tries) else 0)
    ensures LeftBehind(old(d.world), d.world, items, left)
    ensures outcome == NotCreated <==>
      !(allActive && AllPriced(items, prices) && tries[|tries| - 1].net == Delivered)
    ensures outcome == NotCreated && Quiet(tries) ==> OnlyAdded(old(d.world), d.world, |left|)
    ensures outcome == NotCreated ==>
      d.world == if allActive then CreateRun(old(d.world), items, prices, tries) else old(d.world)
    ensures outcome != NotCreated ==>
      && Known(d.world, outcome.orderId) && outcome.orderId !in left && |old(d.world).cases| <= outcome.orderId
      && (Quiet(tries) ==> outcome.orderId == |old(d.world).cases| + |left|)
    ensures outcome != NotCreated ==>
      PlaceAnswer(CreateRun(old(d.world), items, prices, tries), d.world, outcome, script, failed)
    ensures outcome != NotCreated ==> PricedAs(d.world.cases[outcome.orderId].row, items, prices)
    ensures outcome.Shipped? ==>
      var c := d.world.cases[outcome.orderId];
      && c.row.status == SHIPPING && d.world.ledger.claims[outcome.orderId].hold == Deducted
      && Pay.Kept(c.account.books) == Pay.Captured(c.account.books.intents) == 100 * Bill(items, prices)
    ensures outcome.RolledBack? ==>
      var c := d.world.cases[outcome.orderId];
      && c.row.status == PLACE_FAILED && d.world.ledger.claims[outcome.orderId].hold == Free
      && Pay.Kept(c.account.books) == 0
    ensures outcome.CompensationFailed? ==> d.world.cases[outcome.orderId].place.pc == Abandoned
  {
    ghost var start := d.world;
    NoActionLeads(start);
    failed := 0;
    if !allActive { return NotCreated, [], failed; }
    var orderId;
    orderId, left := d.CreateOrder(items, prices, tries);
    if orderId.None? { return NotCreated, left, failed; }
    ghost var created := d.world;
    hide Inv, Leads, Retries, LeftBehind, PlaceAnswer, CreateRun;
    outcome, failed := PlaceCreated(d, orderId.value, script);
    PlaceEnd(d.world, orderId.value);
    AnswerSays(created, d.world, outcome, script, failed);
    RetriesStay(start, created, d.world, items, prices, tries, orderId.value, left);
  }

  /** The workflow from the order's creation on: the try block and, if it fails, the catch block. */
  method PlaceCreated(d: Deployment, o: nat, script: Script) returns (outcome: PlaceOutcome, ghost failed: nat)
    requires Inv(d.world) && Running(d.world, o)
    requires d.world.cases[o].place == PlaceRun(Reserving, false, false, false, None, None)
    modifies d
    ensures Inv(d.world) && Leads(old(d.world), d.world) && Known(d.world, o)
    ensures outcome != NotCreated && outcome.orderId == o
    ensures PlaceAnswer(old(d.world), d.world, outcome, script, failed)
  {
    ghost var created := d.world;
    NoActionLeads(created);
    hide Inv, Leads, FailsFirst, Goes, RefundComes, StockGoesBack, CompensateRun, WorldBefore;
    var done, inventoryReserved, chargeAttempted, inventoryConfirmed;
    done, inventoryReserved, chargeAttempted, inventoryConfirmed, failed := TryPlace(d, o, script, created);
    if done { return Shipped(o), failed; }
    var undone, refundReturned :=
      Compensate(d, o, script, created, inventoryReserved, chargeAttempted, inventoryConfirmed);
    outcome := if undone then RolledBack(o) else CompensationFailed(o, refundReturned);
  }

  lemma AnswerSays(w: World, w': World, outcome: PlaceOutcome, script: Script, failed: nat)
    requires outcome != NotCreated && PlaceAnswer(w, w', outcome, script, failed)
    ensures Known(w', outcome.orderId)
    ensures w'.cases[outcome.orderId].place.pc ==
              if outcome.Shipped? then Placed else if outcome.RolledBack? then PlaceFailed else Abandoned
  {
    hide Goes, FailsFirst, RefundComes, StockGoesBack, CompensateRun, WorldBefore;
  }

  /** What the creation left holds to the end of the run. */
  lemma RetriesStay(w: World, w1: World, w2: World, items: seq<Item>, prices: Prices, tries: seq<Turn>, o: nat,
                    left: seq<nat>)
    requires Inv(w1) && Leads(w1, w2) && Retries(w, w1, items, prices, tries, Some(o), left)
    ensures Leads(w, w2) && LeftBehind(w, w2, items, left)
    ensures Known(w2, o) && PricedAs(w2.cases[o].row, items, prices)
  {
    hide Inv, Leads, LeftBehind, PricedAs;
    LeadsTransitive(w, w1, w2);
    LeftBehindStays(w, w1, w2, items, left);
    RowIsKept(w1, w2, o, items, prices);
  }

  /**
   * The answer, from the world `w` in which the order was created: shipped exactly if all eight calls
   * went well; otherwise `failed` is the first that did not, and the order is rolled back exactly if
   * after it the refund returned, where a charge was attempted, and the stock and status calls were
   * delivered.
   */
  predicate PlaceAnswer(w: World, w': World, outcome: PlaceOutcome, script: Script, failed: nat)
    requires outcome != NotCreated
  {
    var o := outcome.orderId;
    && Known(w', o)
    && w'.cases[o].place.pc ==
         (if outcome.Shipped? then Placed else if outcome.RolledBack? then PlaceFailed else Abandoned)
    && (outcome.Shipped? <==> Goes(w, o, script))
    && (outcome.Shipped? ==> w' == WorldBefore(w, o, script, 9))
    && (!outcome.Shipped? ==>
          var caught := WorldBefore(w, o, script, failed + 1);
          && FailsFirst(w, o, script, failed)
          && w' == CompensateRun(caught, o, script, failed > 1, failed > 2)
          && (outcome.RolledBack? <==> RefundComes(caught, o, script, failed > 2) && StockGoesBack(script, failed > 1))
          && (outcome.CompensationFailed? ==> outcome.refundReturned == RefundComes(caught, o, script, failed > 2)))
  }

  lemma RowIsKept(w: World, w': World, o: nat, items: seq<Item>, prices: Prices)
    requires Inv(w) && Leads(w, w') && Known(w, o) && PricedAs(w.cases[o].row, items, prices)
    ensures Known(w', o) && PricedAs(w'.cases[o].row, items, prices)
  {
    var actions :| Disciplined(w, actions) && Exec(w, actions) == w';
    HistoryIsKept(w, actions, o);
  }

  lemma PlaceEnd(w: World, o: nat)
    requires Inv(w) && Known(w, o)
    ensures
      var c, hold := w.cases[o], w.ledger.claims[o].hold;
      && (c.place.pc == Placed ==>
            && c.row.status == SHIPPING && hold == Deducted
            && Pay.Kept(c.account.books) == Pay.Captured(c.account.books.intents) == 100 * c.row.total)
      && (c.place.pc == PlaceFailed ==>
            c.row.status == PLACE_FAILED && hold == Free && Pay.Kept(c.account.books) == 0)
  {
    assert CaseOk(w.cases[o], w.ledger.claims[o]);
    Pay.MoneyInBooks(w.cases[o].account.books, w.cases[o].row.total);
  }

  lemma CancelEnd(w: World, o: nat)
    requires Inv(w) && Known(w, o)
    ensures
      var c, hold := w.cases[o], w.ledger.claims[o].hold;
      && (c.cancel.pc == Cancelled ==>
            c.row.status == CANCELLED && hold == Free &&
            (c.row.paymentId.Some? ==> Pay.Kept(c.account.books) == 0))
      && (c.cancel.pc == CancelFailed ==> c.row.status == CANCEL_FAILED)
  {
    assert CaseOk(w.cases[o], w.ledger.claims[o]);
    Pay.MoneyInBooks(w.cases[o].account.books, w.cases[o].row.total);
  }

  // ----- cancelOrder and cancelOrderWorkflow -----

  datatype CancelOutcome = NotFound | NotCancelable | CancelledOrder | CancelFailedOrder | StatusWriteFailed

  /** What the cancel's try block does, in the world `w` in which it starts. */
  ghost predicate CancelTried(w: World, w': World, start: World, o: nat, listing: seq<Item>, script: Script, ok: bool) {
    && Inv(w') && Leads(start, w') && Known(w, o) && Known(w', o)
    && w'.cases[o].cancel.pc == (if ok then Cancelled else MarkingCancelFailed)
    && (ok <==> CancelGoes(w, o, listing, script))
    && w' == CancelCalls(w, o, listing, script, CancelCallNumbers(w.cases[o].row.paymentId))
  }

  /** The try block of the cancel workflow: false as soon as one call fails. */
  method TryCancel(d: Deployment, o: nat, listing: seq<Item>, script: Script, ghost start: World) returns (ok: bool)
    requires Inv(d.world) && Leads(start, d.world) && Running(d.world, o)
    requires d.world.cases[o].cancel.pc == ReadingPayment
    modifies d
    ensures CancelTried(old(d.world), d.world, start, o, listing, script, ok)
  {
    ghost var w, saved := d.world, d.world.cases[o].row.paymentId;
    CancelBegins(w, start, o, listing, script);
    hide Inv, Leads, InCancel, CancelCaught, CancelCallFails, CancelTried;
    label try: {
      ok := d.NumberedCancelCall(o, GetPaymentId, listing, script, 0, w, start, saved);
      if !ok { break try; }
      var paymentId := d.world.cases[o].cancel.paymentId;
      if paymentId.Some? {
        ok := d.NumberedCancelCall(o, RefundPayment, listing, script, 1, w, start, saved);
        if !ok { break try; }
      }
      ok := GiveStockBack(d, o, paymentId, listing, script, w, start);
    }
    CancelEnds(d.world, w, start, o, listing, script, saved, ok);
  }

  /** The rest of the try block, once the payment is dealt with. */
  method GiveStockBack(d: Deployment, o: nat, paymentId: Option<nat>, listing: seq<Item>, script: Script,
                       ghost w: World, ghost start: World) returns (ok: bool)
    requires InCancel(d.world, w, start, o, listing, script, 2, paymentId)
    modifies d
    ensures ok <==>
      && !CancelCallFails(w, o, listing, script, 2) && !CancelCallFails(w, o, listing, script, 3)
      && !CancelCallFails(w, o, listing, script, 4)
    ensures if ok then InCancel(d.world, w, start, o, listing, script, 5, paymentId)
            else CancelCaught(d.world, w, start, o, listing, script, paymentId)
  {
    hide InCancel, CancelCaught, CancelCallFails;
    ok := d.NumberedCancelCall(o, GetOrderItems, listing, script, 2, w, start, paymentId);
    if ok {
      if paymentId.Some? {
        ok := d.NumberedCancelCall(o, RestoreInventory, listing, script, 3, w, start, paymentId);
      } else {
        ok := d.NumberedCancelCall(o, ReleaseInventory, listing, script, 3, w, start, paymentId);
      }
    }
    if ok {
      ok := d.NumberedCancelCall(o, UpdateOrderStatus(CANCELLED), listing, script, 4, w, start, paymentId);
    }
  }

  lemma CancelBegins(w: World, start: World, o: nat, listing: seq<Item>, script: Script)
    requires Inv(w) && Leads(start, w) && Known(w, o) && w.cases[o].cancel.pc == ReadingPayment
    ensures InCancel(w, w, start, o, listing, script, 0, w.cases[o].row.paymentId)
  {
    hide Inv, Leads, CancelCalls;
  }

  lemma CancelEnds(w: World, first: World, start: World, o: nat, listing: seq<Item>, script: Script,
                   saved: Option<nat>, ok: bool)
    requires
      if ok then
        && InCancel(w, first, start, o, listing, script, 5, saved)
        && !CancelCallFails(first, o, listing, script, 0) && !CancelCallFails(first, o, listing, script, 2)
        && !CancelCallFails(first, o, listing, script, 3) && !CancelCallFails(first, o, listing, script, 4)
        && (saved.Some? ==> !CancelCallFails(first, o, listing, script, 1))
      else
        && CancelCaught(w, first, start, o, listing, script, saved)
        && (|| CancelCallFails(first, o, listing, script, 0) || CancelCallFails(first, o, listing, script, 2)
            || CancelCallFails(first, o, listing, script, 3) || CancelCallFails(first, o, listing, script, 4)
            || (saved.Some? && CancelCallFails(first, o, listing, script, 1)))
    ensures CancelTried(first, w, start, o, listing, script, ok)
  {
    hide Inv, Leads, CancelCallRun, AroundRun, RefundReturned;
  }

  /**
   * The answer to an admitted cancel, from the world in which it starts: cancelled exactly if the try
   * block went through, and then the stock is back and, for an order with a payment id, the money too.
   * Otherwise the fate of the last call, number 5, says whether the failure is on record.
   */
  predicate CancelAnswer(w: World, w': World, o: nat, listing: seq<Item>, script: Script, outcome: CancelOutcome) {
    && Known(w, o) && Known(w', o)
    && (outcome == CancelledOrder <==> CancelGoes(w, o, listing, script))
    && (outcome == CancelFailedOrder <==> !CancelGoes(w, o, listing, script) && script(5).net == Delivered)
    && (outcome == StatusWriteFailed <==> !CancelGoes(w, o, listing, script) && script(5).net != Delivered)
    && var tried := CancelCalls(w, o, listing, script, CancelCallNumbers(w.cases[o].row.paymentId));
       && w' == (if CancelGoes(w, o, listing, script) then tried else CancelCallRun(tried, o, script(5), listing))
       && w'.cases[o].cancel.pc ==
            (if outcome == CancelledOrder then Cancelled
             else if outcome == CancelFailedOrder then CancelFailed else CancelAbandoned)
  }

  /** `cancelOrderWorkflow`: the try block, and the status that says that it failed. */
  method CancelOrderWorkflow(d: Deployment, o: nat, listing: seq<Item>, script: Script, ghost start: World)
    returns (outcome: CancelOutcome)
    requires Inv(d.world) && Leads(start, d.world) && Running(d.world, o)
    requires d.world.cases[o].cancel.pc == ReadingPayment
    modifies d
    ensures Inv(d.world) && Leads(start, d.world)
    ensures CancelAnswer(old(d.world), d.world, o, listing, script, outcome)
  {
    hide Inv, Leads, CancelGoes, CancelCalls, CancelCallRun, AroundRun;
    var ok := TryCancel(d, o, listing, script, start);
    if ok { return CancelledOrder; }
    var written := d.CancelCall(o, UpdateOrderStatus(CANCEL_FAILED), script(5), listing, start);
    outcome := if written then CancelFailedOrder else StatusWriteFailed;
  }

  /**
   * A cancel request: refused unless the order exists and is cancelable; otherwise its workflow runs.
   */
  method CancelOrder(d: Deployment, o: nat, listing: seq<Item>, script: Script) returns (outcome: CancelOutcome)
    requires Inv(d.world) && Fit(d.world, StartCancel(o))
    modifies d
    ensures Inv(d.world) && Leads(old(d.world), d.world)
    ensures outcome == NotFound <==> !Known(old(d.world), o)
    ensures outcome == NotCancelable <==> Known(old(d.world), o) && !old(d.world).cases[o].row.IsCancelable()
    ensures (outcome.NotFound? || outcome.NotCancelable?) ==> d.world == old(d.world)
    ensures !outcome.NotFound? && !outcome.NotCancelable? ==>
      CancelAnswer(Step(old(d.world), StartCancel(o)), d.world, o, listing, script, outcome)
    ensures outcome == CancelledOrder ==>
      && Known(d.world, o) && d.world.cases[o].row.status == CANCELLED
      && d.world.ledger.claims[o].hold == Free
      && (d.world.cases[o].row.paymentId.Some? ==> Pay.Kept(d.world.cases[o].account.books) == 0)
    ensures outcome == CancelFailedOrder ==> Known(d.world, o) && d.world.cases[o].row.status == CANCEL_FAILED
  {
    ghost var start := d.world;
    NoActionLeads(start);
    InvSizes(start);
    if !(o < |d.world.cases|) { return NotFound; }
    if !d.world.cases[o].row.IsCancelable() { return NotCancelable; }
    StartsReading(start, o);
    hide Inv, Leads, Step, CancelGoes, CancelCalls, CancelCallRun, Fit;
    d.Perform(StartCancel(o), start);
    outcome := CancelOrderWorkflow(d, o, listing, script, start);
    CancelEnd(d.world, o);
  }

  lemma InvSizes(w: World)
    requires Inv(w)
    ensures |w.cases| == |w.ledger.claims|
  {
  }

  lemma StartsReading(w: World, o: nat)
    requires Known(w, o) && MayCancel(w.cases[o])
    ensures Running(Step(w, StartCancel(o)), o) && Step(w, StartCancel(o)).cases[o].cancel.pc == ReadingPayment
  {
  }
}
