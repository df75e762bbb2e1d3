/** `chargePayment` and `refundPayment` as the straight-line programs they are. */
module PaymentService {
  import opened Common
  import opened Payment

  const CHARGE_ATTEMPTS := 3

  class PaymentStore {
    var books: map<int, Books>   // by order id

    constructor ()
      ensures books == map[]
    {
      books := map[];
    }

    function Of(orderId: int): Books
      reads this
    {
      if orderId in books then books[orderId] else EMPTY_BOOKS
    }

    /** Runs as one attempt of the step machine: `lucks` are the fates of its three steps. */
    method ChargePayment(orderId: int, totalAmount: int, lucks: seq<Luck>) returns (result: Attempt)
      requires |lucks| == 3
      modifies this
      ensures
        var (b, a) := RunAttempt(old(Of(orderId)), ChargeLookup(totalAmount), lucks);
        books == old(books)[orderId := b] && result == a
    {
      ThreeSteps(Of(orderId), ChargeLookup(totalAmount), lucks);
      var b := Of(orderId);
      books := books[orderId := b];
      // findOne by order and SUCCESS
      if lucks[0].net != Delivered { return Threw(Transient); }
      var existing := FindRow(b.rows, true);
      if existing.Some? { return ChargeDone(existing.value.id); }
      // paymentIntents.create under the charge key
      if lucks[1].net == Unreached {
        if lucks[1].breakerOpen { return Threw(CircuitOpened); }
        return Threw(if IsStripeClientError(lucks[1].status) then Rejected else Transient);
      }
      var reply;
      b, reply := DoCreateIntent(b, Cents(totalAmount), lucks[1]);
      books := books[orderId := b];
      if lucks[1].net == Lost { return Threw(Transient); }
      if reply.Refused? {
        return Threw(if IsStripeClientError(Some(reply.code)) then Rejected else Transient);
      }
      var intent := FindIntent(b.intents, reply.id);
      if intent.None? || !intent.value.succeeded { return Threw(Rejected); }
      // save, with order_id unique
      if lucks[2].net == Unreached || !InsertFits(b) { return Threw(Transient); }
      books := books[orderId := Insert(b, lucks[2].serial + 1, intent.value, SUCCESS)];
      if lucks[2].net == Lost { return Threw(Transient); }
      result := ChargeDone(lucks[2].serial + 1);
    }

    /** At most three attempts; one that returns, or fails for good, is the last. */
    method ChargeUnderPolicy(orderId: int, totalAmount: int, tries: seq<seq<Luck>>)
      returns (result: Attempt, made: nat)
      requires |tries| == CHARGE_ATTEMPTS && forall i :: 0 <= i < |tries| ==> |tries[i]| == 3
      modifies this
      ensures
        var (b, a, n) := ChargeTries(old(Of(orderId)), totalAmount, tries);
        books == old(books)[orderId := b] && result == a && made == n
      ensures 1 <= made <= 3
    {
      ChargeTriesCount(Of(orderId), totalAmount, tries);
      made := 0;
      while made < |tries|
        invariant made < |tries|
        invariant made > 0 ==> books == old(books)[orderId := Of(orderId)]
        invariant made == 0 ==> books == old(books)
        invariant
          var all, rest := ChargeTries(old(Of(orderId)), totalAmount, tries),
                           ChargeTries(Of(orderId), totalAmount, tries[made..]);
          all == (rest.0, rest.1, rest.2 + made)
        decreases |tries| - made
      {
        assert tries[made..][0] == tries[made] && tries[made..][1..] == tries[made + 1..];
        result := ChargePayment(orderId, totalAmount, tries[made]);
        made := made + 1;
        if made == |tries| || result.ChargeDone? || result == Threw(Rejected) { return; }
      }
    }

    /** Runs as one attempt of the step machine: `lucks` are the fates of its up to four steps. */
    method RefundPayment(orderId: int, totalAmount: Option<int>, lucks: seq<Luck>) returns (result: Attempt)
      requires |lucks| == 4
      modifies this
      ensures
        var (b, a) := RunAttempt(old(Of(orderId)), RefundLookup(totalAmount), lucks);
        books == old(books)[orderId := b] && result == a
    {
      var b := Of(orderId);
      EndedStays(b, AttemptStep(b, RefundLookup(totalAmount), lucks[0]).1, lucks[1..]);
      books := books[orderId := b];
      if lucks[0].net != Delivered { return Threw(Transient); }
      var existing := FindRow(b.rows, false);
      if existing.None? {
        if totalAmount.None? { return Threw(AmountMissing); }
        b, result := RefundUnrecorded(b, totalAmount.value, lucks[1..]);
      } else if existing.value.status == REFUNDED {
        return RefundDone;
      } else {
        b, result := RefundRecorded(b, existing.value, lucks[1..]);
      }
      books := books[orderId := b];
    }
  }

  /** The branch with a row that is not yet REFUNDED. */
  method RefundRecorded(books: Books, txn: Txn, lucks: seq<Luck>) returns (b: Books, result: Attempt)
    requires |lucks| == 3
    ensures (b, result) == RunAttempt(books, RefundCall(txn.intent, Some(txn.id)), lucks)
  {
    ThreeSteps(books, RefundCall(txn.intent, Some(txn.id)), lucks);
    b, result := DoRefund(books, txn.intent, lucks[0]);
    if result != RefundDone { return; }
    if lucks[1].net == Unreached { return b, Threw(Transient); }
    b := b.(rows := MarkRefunded(b.rows, txn.id));
    result := if lucks[1].net == Lost then Threw(Transient) else RefundDone;
  }

  /** The branch without a row: probe the charge key, and refund and record what it turns up. */
  method RefundUnrecorded(books: Books, totalAmount: int, lucks: seq<Luck>) returns (b: Books, result: Attempt)
    requires |lucks| == 3
    ensures (b, result) == RunAttempt(books, RefundProbe(totalAmount), lucks)
  {
    ThreeSteps(books, RefundProbe(totalAmount), lucks);
    b := books;
    if lucks[0].net == Unreached { return b, Threw(RefundFailure(lucks[0])); }
    var reply;
    b, reply := DoCreateIntent(b, Cents(totalAmount), lucks[0]);
    if lucks[0].net == Lost || reply.Refused? { return b, Threw(Transient); }
    if !IntentSucceeded(b, reply.id) { return b, RefundDone; }
    var intent := FindIntent(b.intents, reply.id).value;
    b, result := DoRefund(b, reply.id, lucks[1]);
    if result != RefundDone { return; }
    if lucks[2].net == Unreached || !InsertFits(b) { return b, Threw(Transient); }
    b := Insert(b, lucks[2].serial + 1, intent, REFUNDED);
    result := if lucks[2].net == Lost then Threw(Transient) else RefundDone;
  }

  method DoCreateIntent(b: Books, cents: int, luck: Luck) returns (b': Books, reply: Reply)
    ensures (b', reply) == CreateIntent(b, cents, luck)
  {
    var r := CreateIntent(b, cents, luck);
    b', reply := r.0, r.1;
  }

  /** One `refunds.create`, up to the check of its status. */
  method DoRefund(b: Books, intent: nat, luck: Luck) returns (b': Books, outcome: Attempt)
    ensures luck.net == Unreached ==> b' == b && outcome == Threw(RefundFailure(luck))
    ensures luck.net != Unreached ==>
      var (after, reply) := CreateRefund(b, intent, luck);
      && b' == after
      && outcome == (if luck.net == Delivered && reply.Made? && RefundSucceeded(after, reply.id)
                     then RefundDone else Threw(Transient))
  {
    if luck.net == Unreached { return b, Threw(RefundFailure(luck)); }
    var r := CreateRefund(b, intent, luck);
    b' := r.0;
    if luck.net == Lost || r.1.Refused? { return b', Threw(Transient); }
    outcome := if RefundSucceeded(b', r.1.id) then RefundDone else Threw(Transient);
  }

  function Advances(k: nat, lucks: seq<Luck>): seq<Event> {
    if lucks == [] then [] else [Advance(k, lucks[0])] + Advances(k, lucks[1..])
  }

  /** A call of either method is one interleaving of the step machine, so all its guarantees apply. */
  lemma {:induction false} CallIsARun(acc: Account, k: nat, lucks: seq<Luck>, due: int)
    requires k < |acc.attempts|
    ensures
      var (b, a) := RunAttempt(acc.books, acc.attempts[k], lucks);
      AccountRun(acc, Advances(k, lucks), due) == Account(b, acc.attempts[k := a])
    decreases |lucks|
  {
    if lucks == [] {
      assert acc.attempts[k := acc.attempts[k]] == acc.attempts;
    } else {
      var events := Advances(k, lucks);
      assert events[1..] == Advances(k, lucks[1..]);
      CallIsARun(AccountStep(acc, events[0], due), k, lucks[1..], due);
    }
  }
}
