/**
 * One order's workflows as step machines: `placeOrderWorkflow` with its progress flags and
 * compensation, and `cancelOrderWorkflow`. A step is one activity call together with what the
 * workflow does with its reply.
 */
module Saga {
  import opened Common
  import opened Inventory
  import opened Ledger
  import opened Orders
  import Pay = Payment

  datatype PlacePc =
    | Reserving | ReadingTotal | Charging | SavingPayment | MarkingPaid
    | Confirming | Shipping | MarkingShipped | Placed
    | Refunding | Undoing | MarkingFailed | PlaceFailed
    | Abandoned   // ended without finishing its compensation, or without learning the order id

  datatype PlaceRun = PlaceRun(
    pc: PlacePc,
    reserved: bool,
    attempted: bool,
    confirmed: bool,
    paymentId: Option<nat>,
    total: Option<int>)

  datatype CancelPc =
    | Idle | ReadingPayment | RefundingCancel | ReadingItems | UndoingCancel | MarkingCancelled
    | MarkingCancelFailed | Cancelled | CancelFailed | CancelAbandoned

  datatype CancelRun = CancelRun(pc: CancelPc, paymentId: Option<nat>, listing: seq<Item>)

  /** Everything stored for one order, and where its workflows are. */
  datatype Case = Case(
    row: OrderRow,
    place: PlaceRun,
    cancel: CancelRun,
    account: Pay.Account,
    shipments: nat,
    refused: bool)   // history: a confirm, release or restore was refused by its guard

  function NewCase(row: OrderRow, pc: PlacePc): Case {
    Case(row, PlaceRun(pc, false, false, false, None, None), CancelRun(Idle, None, []),
         Pay.Account(Pay.EMPTY_BOOKS, []), 0, false)
  }

  // ----- placeOrderWorkflow -----

  predicate Forward(pc: PlacePc) {
    pc.Reserving? || pc.ReadingTotal? || pc.Charging? || PaymentReturned(pc)
  }

  /** The forward steps at which the charge has returned, and those at which its id is saved too. */
  predicate PaymentReturned(pc: PlacePc) { pc.SavingPayment? || PaymentSaved(pc) }

  predicate PaymentSaved(pc: PlacePc) {
    pc.MarkingPaid? || pc.Confirming? || pc.Shipping? || pc.MarkingShipped? || pc.Placed?
  }

  /** The steps of the compensation that come after the refund. */
  predicate AfterRefund(pc: PlacePc) { pc.Undoing? || pc.MarkingFailed? || pc.PlaceFailed? }

  predicate PlaceLive(pc: PlacePc) { !pc.Placed? && !pc.PlaceFailed? && !pc.Abandoned? }

  /** The inventory activity that the next step calls, if any. */
  function PlaceCall(c: Case): Option<Activity> {
    match c.place.pc
    case Reserving => Some(Reserve)
    case Confirming => Some(Confirm)
    case Undoing => Some(if c.place.confirmed then Restore else Release)
    case _ => None
  }

  function At(c: Case, pc: PlacePc): Case { c.(place := c.place.(pc := pc)) }

  /** Where the catch block starts: the flags say which step of the compensation comes first. */
  function CatchPc(p: PlaceRun): PlacePc {
    if p.attempted then Refunding else if p.reserved then Undoing else MarkingFailed
  }

  function Catch(c: Case): Case { At(c, CatchPc(c.place)) }

  /** The reply of a charge or refund activity is the return of one of its attempts. */
  predicate Charged(c: Case, via: nat) { via < |c.account.attempts| && c.account.attempts[via].ChargeDone? }

  predicate Refunded(c: Case, via: nat) { via < |c.account.attempts| && c.account.attempts[via] == Pay.RefundDone }

  /** A write to the order row that may take effect although the workflow sees a failure. */
  function Write(c: Case, net: Net, row: OrderRow, next: PlacePc, failed: PlacePc): Case {
    At(if net.TookEffect() then c.(row := row) else c, if net == Delivered then next else failed)
  }

  function PlaceStep(c: Case, net: Net, via: nat, granted: bool): Case {
    match c.place.pc
    case Reserving =>
      if net == Delivered && granted
      then c.(place := c.place.(pc := ReadingTotal, reserved := true))
      else Catch(c)
    case ReadingTotal =>
      if net == Delivered
      then c.(place := c.place.(pc := Charging, total := Some(c.row.total), attempted := true))
      else Catch(c)
    case Charging =>
      if net != Delivered then Catch(c)
      else if Charged(c, via)
      then c.(place := c.place.(pc := SavingPayment, paymentId := Some(c.account.attempts[via].id)))
      else c
    case SavingPayment =>
      if c.place.paymentId.None? then Catch(c)
      else Write(c, net, WithPaymentId(c.row, c.place.paymentId.value), MarkingPaid, CatchPc(c.place))
    case MarkingPaid => Write(c, net, WithStatus(c.row, PAID), Confirming, CatchPc(c.place))
    case Confirming =>
      if net == Delivered && granted
      then c.(place := c.place.(pc := Shipping, confirmed := true))
      else Catch(c.(refused := c.refused || (net == Delivered && !granted)))
    case Shipping =>
      At(if net.TookEffect() then c.(shipments := c.shipments + 1) else c,
         if net == Delivered then MarkingShipped else CatchPc(c.place))
    case MarkingShipped => Write(c, net, WithStatus(c.row, SHIPPING), Placed, CatchPc(c.place))
    case Refunding =>
      if net != Delivered then At(c, Abandoned)
      else if Refunded(c, via) then At(c, Undoing)
      else c
    case Undoing =>
      if net == Delivered && granted then At(c, MarkingFailed)
      else At(c.(refused := c.refused || (net == Delivered && !granted)), Abandoned)
    case MarkingFailed => Write(c, net, WithStatus(c.row, PLACE_FAILED), PlaceFailed, Abandoned)
    case _ => c
  }

  // ----- cancelOrderWorkflow -----

  predicate CancelLive(pc: CancelPc) {
    !pc.Idle? && !pc.Cancelled? && !pc.CancelFailed? && !pc.CancelAbandoned?
  }

  function CancelAt(c: Case, pc: CancelPc): Case { c.(cancel := c.cancel.(pc := pc)) }

  /** Restore for an order with a payment id, release for one without. */
  function CancelActivity(paymentId: Option<nat>): Activity { if paymentId.Some? then Restore else Release }

  function CancelCall(c: Case): Option<Activity> {
    if c.cancel.pc == UndoingCancel then Some(CancelActivity(c.cancel.paymentId)) else None
  }

  function CancelWrite(c: Case, net: Net, status: OrderStatus, next: CancelPc, failed: CancelPc): Case {
    CancelAt(if net.TookEffect() then c.(row := WithStatus(c.row, status)) else c,
             if net == Delivered then next else failed)
  }

  function CancelStep(c: Case, net: Net, via: nat, granted: bool, listing: seq<Item>): Case {
    match c.cancel.pc
    case ReadingPayment =>
      if net == Delivered
      then c.(cancel := c.cancel.(paymentId := c.row.paymentId,
                                  pc := if c.row.paymentId.Some? then RefundingCancel else ReadingItems))
      else CancelAt(c, MarkingCancelFailed)
    case RefundingCancel =>
      if net != Delivered then CancelAt(c, MarkingCancelFailed)
      else if Refunded(c, via) then CancelAt(c, ReadingItems)
      else c
    case ReadingItems =>
      if net != Delivered then CancelAt(c, MarkingCancelFailed)
      else if multiset(listing) == multiset(ItemsOf(c.row.lines))   // rows come in any order
      then c.(cancel := c.cancel.(listing := listing, pc := UndoingCancel))
      else c
    case UndoingCancel =>
      if net == Delivered && granted then CancelAt(c, MarkingCancelled)
      else CancelAt(c.(refused := c.refused || (net == Delivered && !granted)), MarkingCancelFailed)
    case MarkingCancelled => CancelWrite(c, net, CANCELLED, Cancelled, MarkingCancelFailed)
    case MarkingCancelFailed => CancelWrite(c, net, CANCEL_FAILED, CancelFailed, CancelAbandoned)
    case _ => c
  }

  /** A saved payment id says the stock was confirmed; none says it is still reserved. */
  predicate CancelFits(hold: Hold, paymentId: Option<nat>) { hold == Before(CancelActivity(paymentId)) }

  /** The gate of `cancelOrder` looks at the status only. */
  predicate MayCancel(c: Case) { c.row.IsCancelable() }

  // ----- payment attempts started by the workflows -----

  predicate MayStart(c: Case, a: Pay.Attempt) {
    || (c.place.attempted && c.place.total.Some? && a == Pay.ChargeLookup(c.place.total.value))
    || (c.place.pc == Refunding && a == Pay.RefundLookup(c.place.total))
    || (c.cancel.pc == RefundingCancel && a == Pay.RefundLookup(None))
  }

  // ----- the invariant of one order -----

  predicate FlagsOk(p: PlaceRun, hold: Hold) {
    && (p.confirmed ==> p.attempted) && (p.attempted ==> p.reserved)
    && match p.pc
       case Reserving => !p.reserved && hold == Free
       case ReadingTotal => p.reserved && !p.attempted && hold == Held
       case Charging | SavingPayment | MarkingPaid | Confirming => p.attempted && !p.confirmed && hold == Held
       case Shipping | MarkingShipped | Placed => p.confirmed && hold == Deducted
       case Refunding => p.attempted && hold == (if p.confirmed then Deducted else Held)
       case Undoing => p.reserved && hold == (if p.confirmed then Deducted else Held)
       case MarkingFailed | PlaceFailed => hold == Free
       case Abandoned => true
  }

  predicate NoRefundYet(account: Pay.Account) {
    && account.books.refundKey.None?
    && forall i :: 0 <= i < |account.attempts| ==> !Pay.IsRefundAttempt(account.attempts[i])
  }

  predicate MoneyOk(c: Case) {
    && Pay.AccountOk(c.account, c.row.total) && Pay.AmountsKnown(c.account)
    && (c.place.attempted ==> c.place.total == Some(c.row.total))
    && (!c.place.attempted ==>
          c.account == Pay.Account(Pay.EMPTY_BOOKS, []) && c.place.paymentId.None? && c.row.paymentId.None?)
    && (c.place.paymentId.Some? ==> Pay.HasRow(c.account.books, c.place.paymentId.value))
    && (c.row.paymentId.Some? ==> c.row.paymentId == c.place.paymentId)
    && (c.place.confirmed ==> c.row.paymentId.Some?)
    && (PaymentReturned(c.place.pc) ==> c.place.paymentId.Some?)
    && (PaymentSaved(c.place.pc) ==> c.row.paymentId == c.place.paymentId)
    && (AfterRefund(c.place.pc) && c.place.attempted ==> Pay.Settled(c.account.books))
    && (Forward(c.place.pc) ==> NoRefundYet(c.account))
  }

  predicate StatusOk(c: Case, hold: Hold) {
    && (match c.place.pc
        case Reserving | ReadingTotal | Charging | SavingPayment | MarkingPaid => c.row.status == PENDING
        case Confirming | Shipping | MarkingShipped => c.row.status == PAID
        case Placed => c.row.status == SHIPPING
        case Refunding | Undoing | MarkingFailed => c.row.IsCancelable() || c.row.status == SHIPPING
        case PlaceFailed => c.row.status == PLACE_FAILED
        case Abandoned => c.row.status != DELIVERED && c.row.status != OrderStatus.REFUNDED)
    && (c.row.status == SHIPPING || c.place.pc == MarkingShipped ==> c.shipments > 0 && c.row.paymentId.Some?)
    && (c.row.status == PLACE_FAILED ==> hold == Free && (c.place.attempted ==> Pay.Settled(c.account.books)))
    && (c.row.status == CANCELLED ==> hold == Free && (c.row.paymentId.Some? ==> Pay.Settled(c.account.books)))
  }

  predicate CancelOk(c: Case, hold: Hold) {
    && (c.cancel.pc != Idle ==>
          && c.place.pc == Abandoned
          && (c.row.IsCancelable() || c.row.status == CANCELLED || c.row.status == CANCEL_FAILED))
    && (c.cancel.pc == Idle ==> c.row.status != CANCELLED && c.row.status != CANCEL_FAILED)
    && match c.cancel.pc
       case Idle => true
       case ReadingPayment => CancelFits(hold, c.row.paymentId) && c.row.IsCancelable()
       case RefundingCancel =>
         && c.cancel.paymentId == c.row.paymentId && c.cancel.paymentId.Some?
         && hold == Deducted && c.row.IsCancelable()
       case ReadingItems | UndoingCancel =>
         && c.cancel.paymentId == c.row.paymentId && CancelFits(hold, c.row.paymentId) && c.row.IsCancelable()
         && (c.row.paymentId.Some? ==> Pay.Settled(c.account.books))
         && (c.cancel.pc == UndoingCancel ==> multiset(c.cancel.listing) == multiset(ItemsOf(c.row.lines)))
       case MarkingCancelled =>
         && c.row.IsCancelable()
         && hold == Free && (c.row.paymentId.Some? ==> Pay.Settled(c.account.books))
       case MarkingCancelFailed => c.row.status != CANCEL_FAILED
       case Cancelled => c.row.status == CANCELLED
       case CancelFailed => c.row.status == CANCEL_FAILED
       case CancelAbandoned => true
  }

  predicate CaseOk(c: Case, claim: Claim) {
    && c.row.total == LinesTotal(c.row.lines)
    && claim.items == ItemsOf(c.row.lines)
    && !c.refused
    && FlagsOk(c.place, claim.hold)
    && MoneyOk(c)
    && StatusOk(c, claim.hold)
    && CancelOk(c, claim.hold)
  }

  // ----- each kind of step keeps it -----

  /** The claim after a step that made the given inventory call. */
  function ClaimAfter(claim: Claim, call: Option<Activity>, net: Net, granted: bool): Claim {
    if call.Some? && net == Delivered && granted then claim.(hold := After(call.value)) else claim
  }

  lemma ReserveStepOk(c: Case, claim: Claim, net: Net, via: nat, granted: bool)
    requires CaseOk(c, claim)
    requires c.place.pc.Reserving? || c.place.pc.ReadingTotal?
    requires PlaceCall(c).Some? && PlaceCall(c) != Some(Reserve) && net == Delivered ==> granted
    ensures CaseOk(PlaceStep(c, net, via, granted), ClaimAfter(claim, PlaceCall(c), net, granted))
  {
  }

  lemma PayStepOk(c: Case, claim: Claim, net: Net, via: nat, granted: bool)
    requires CaseOk(c, claim)
    requires c.place.pc.Charging? || c.place.pc.SavingPayment? || c.place.pc.MarkingPaid?
    requires PlaceCall(c).Some? && PlaceCall(c) != Some(Reserve) && net == Delivered ==> granted
    ensures CaseOk(PlaceStep(c, net, via, granted), ClaimAfter(claim, PlaceCall(c), net, granted))
  {
    if Charged(c, via) {
      assert Pay.AttemptOk(c.account.books, c.account.attempts[via], c.row.total);
    }
  }

  lemma DeliverStepOk(c: Case, claim: Claim, net: Net, via: nat, granted: bool)
    requires CaseOk(c, claim)
    requires c.place.pc.Confirming? || c.place.pc.Shipping? || c.place.pc.MarkingShipped?
    requires PlaceCall(c).Some? && PlaceCall(c) != Some(Reserve) && net == Delivered ==> granted
    ensures CaseOk(PlaceStep(c, net, via, granted), ClaimAfter(claim, PlaceCall(c), net, granted))
  {
  }

  lemma RefundStepOk(c: Case, claim: Claim, net: Net, via: nat, granted: bool)
    requires CaseOk(c, claim)
    requires c.place.pc.Refunding?
    requires PlaceCall(c).Some? && PlaceCall(c) != Some(Reserve) && net == Delivered ==> granted
    ensures CaseOk(PlaceStep(c, net, via, granted), ClaimAfter(claim, PlaceCall(c), net, granted))
  {
    if Refunded(c, via) {
      assert Pay.AttemptOk(c.account.books, c.account.attempts[via], c.row.total);
    }
  }

  lemma UndoStepOk(c: Case, claim: Claim, net: Net, via: nat, granted: bool)
    requires CaseOk(c, claim)
    requires c.place.pc == Undoing
    requires PlaceCall(c).Some? && PlaceCall(c) != Some(Reserve) && net == Delivered ==> granted
    ensures CaseOk(PlaceStep(c, net, via, granted), ClaimAfter(claim, PlaceCall(c), net, granted))
  {
  }

  lemma MarkFailedStepOk(c: Case, claim: Claim, net: Net, via: nat, granted: bool)
    requires CaseOk(c, claim)
    requires c.place.pc == MarkingFailed
    requires PlaceCall(c).Some? && PlaceCall(c) != Some(Reserve) && net == Delivered ==> granted
    ensures CaseOk(PlaceStep(c, net, via, granted), ClaimAfter(claim, PlaceCall(c), net, granted))
  {
  }

  /** Each step of the place workflow keeps the order consistent with what it holds. */
  lemma PlaceStepOk(c: Case, claim: Claim, net: Net, via: nat, granted: bool)
    requires CaseOk(c, claim)
    requires PlaceCall(c).Some? && PlaceCall(c) != Some(Reserve) && net == Delivered ==> granted
    ensures CaseOk(PlaceStep(c, net, via, granted), ClaimAfter(claim, PlaceCall(c), net, granted))
  {
    match c.place.pc
    case Reserving | ReadingTotal => ReserveStepOk(c, claim, net, via, granted);
    case Charging | SavingPayment | MarkingPaid => PayStepOk(c, claim, net, via, granted);
    case Confirming | Shipping | MarkingShipped => DeliverStepOk(c, claim, net, via, granted);
    case Refunding => RefundStepOk(c, claim, net, via, granted);
    case Undoing => UndoStepOk(c, claim, net, via, granted);
    case MarkingFailed => MarkFailedStepOk(c, claim, net, via, granted);
    case _ =>
  }

  lemma PlaceCallFitsHold(c: Case, claim: Claim)
    requires CaseOk(c, claim) && PlaceCall(c).Some?
    ensures claim.hold == Before(PlaceCall(c).value)
  {
  }

  lemma CancelCallFitsHold(c: Case, claim: Claim)
    requires CaseOk(c, claim) && CancelCall(c).Some?
    ensures claim.hold == Before(CancelCall(c).value)
    ensures multiset(c.cancel.listing) == multiset(claim.items)
  {
  }

  lemma CancelReadOk(c: Case, claim: Claim, net: Net, via: nat, granted: bool, listing: seq<Item>)
    requires CaseOk(c, claim)
    requires c.cancel.pc.ReadingPayment? || c.cancel.pc.RefundingCancel? || c.cancel.pc.ReadingItems?
    requires CancelCall(c).Some? && net == Delivered ==> granted
    ensures CaseOk(CancelStep(c, net, via, granted, listing), ClaimAfter(claim, CancelCall(c), net, granted))
  {
    if Refunded(c, via) {
      assert Pay.AttemptOk(c.account.books, c.account.attempts[via], c.row.total);
    }
  }

  lemma CancelUndoOk(c: Case, claim: Claim, net: Net, via: nat, granted: bool, listing: seq<Item>)
    requires CaseOk(c, claim)
    requires c.cancel.pc == UndoingCancel
    requires CancelCall(c).Some? && net == Delivered ==> granted
    ensures CaseOk(CancelStep(c, net, via, granted, listing), ClaimAfter(claim, CancelCall(c), net, granted))
  {
  }

  lemma MarkCancelledOk(c: Case, claim: Claim, net: Net, via: nat, granted: bool, listing: seq<Item>)
    requires CaseOk(c, claim)
    requires c.cancel.pc == MarkingCancelled
    ensures CaseOk(CancelStep(c, net, via, granted, listing), claim)
  {
  }

  lemma MarkCancelFailedOk(c: Case, claim: Claim, net: Net, via: nat, granted: bool, listing: seq<Item>)
    requires CaseOk(c, claim)
    requires c.cancel.pc == MarkingCancelFailed
    ensures CaseOk(CancelStep(c, net, via, granted, listing), claim)
  {
  }

  /** Each step of the cancel workflow keeps the order consistent with what it holds. */
  lemma CancelStepOk(c: Case, claim: Claim, net: Net, via: nat, granted: bool, listing: seq<Item>)
    requires CaseOk(c, claim)
    requires CancelCall(c).Some? && net == Delivered ==> granted
    ensures CaseOk(CancelStep(c, net, via, granted, listing), ClaimAfter(claim, CancelCall(c), net, granted))
  {
    if c.cancel.pc.ReadingPayment? || c.cancel.pc.RefundingCancel? || c.cancel.pc.ReadingItems? {
      CancelReadOk(c, claim, net, via, granted, listing);
    } else if c.cancel.pc == UndoingCancel {
      CancelUndoOk(c, claim, net, via, granted, listing);
    } else if c.cancel.pc == MarkingCancelled {
      MarkCancelledOk(c, claim, net, via, granted, listing);
    } else if c.cancel.pc == MarkingCancelFailed {
      MarkCancelFailedOk(c, claim, net, via, granted, listing);
    }
  }

  lemma PlaceStepKeeps(c: Case, net: Net, via: nat, granted: bool)
    ensures
      var c' := PlaceStep(c, net, via, granted);
      && c'.row.lines == c.row.lines && c'.row.total == c.row.total
      && c'.account == c.account && c'.cancel == c.cancel
      && (c.place.attempted ==> c'.place.attempted)
      && (!PlaceLive(c.place.pc) ==> c' == c)
  {
  }

  lemma CancelStepKeeps(c: Case, net: Net, via: nat, granted: bool, listing: seq<Item>)
    ensures
      var c' := CancelStep(c, net, via, granted, listing);
      && c'.row.lines == c.row.lines && c'.row.total == c.row.total
      && c'.account == c.account && c'.place == c.place
      && (!CancelLive(c.cancel.pc) ==> c' == c)
  {
  }

  lemma StartCancelOk(c: Case, claim: Claim)
    requires CaseOk(c, claim) && MayCancel(c)
    requires !PlaceLive(c.place.pc) && !CancelLive(c.cancel.pc) && CancelFits(claim.hold, c.row.paymentId)
    ensures CaseOk(CancelAt(c, ReadingPayment), claim)
  {
  }

  lemma AccountEventOk(c: Case, claim: Claim, e: Pay.Event)
    requires CaseOk(c, claim)
    requires e.Start? ==> MayStart(c, e.attempt)
    ensures CaseOk(c.(account := Pay.AccountStep(c.account, e, c.row.total)), claim)
  {
    Pay.AccountStepOk(c.account, e, c.row.total);
    Pay.AmountsStayKnown(c.account, e, c.row.total);
    if Forward(c.place.pc) {
      ChargesKeepNoRefund(c.account, e, c.row.total);
    }
  }

  lemma ChargesKeepNoRefund(account: Pay.Account, e: Pay.Event, due: int)
    requires NoRefundYet(account)
    requires e.Start? ==> !Pay.IsRefundAttempt(e.attempt)
    ensures NoRefundYet(Pay.AccountStep(account, e, due))
  {
  }
}
