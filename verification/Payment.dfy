/**
 * Charging and refunding one order, as small steps: a database read or write, or one Stripe
 * call. Any number of attempts run at once and each may fail before or after its effect.
 *
 * The books are those of one order: its rows, its Stripe objects and the two keys that name it.
 * `PaymentTables` proves that in tables shared by all orders each order's part goes through
 * exactly the runs described here.
 */
module Payment {
  import opened Common

  datatype TxnStatus = PENDING | SUCCESS | FAILED | REFUNDED

  datatype Txn = Txn(id: nat, intent: nat, amount: int, status: TxnStatus)

  // Stripe's objects
  datatype Intent = Intent(id: nat, amount: int, succeeded: bool)
  datatype Refund = Refund(id: nat, intent: nat, amount: int, succeeded: bool)

  datatype Reply = Made(id: nat) | Refused(code: nat)

  /** An idempotency key that has been used: the parameter it is tied to and the reply it replays. */
  datatype Bound = Bound(param: int, reply: Reply)

  datatype Books = Books(
    rows: seq<Txn>,
    intents: seq<Intent>,
    refunds: seq<Refund>,
    chargeKey: Option<Bound>,
    refundKey: Option<Bound>)

  const EMPTY_BOOKS := Books([], [], [], None, None)

  /** How Stripe decides the first request under a key. */
  datatype Verdict = Approve | Hold | Decline(code: nat)

  /** Everything an attempt's next step cannot foresee. */
  datatype Luck = Luck(
    net: Net,
    breakerOpen: bool,       // with `Unreached`: the circuit breaker refused the call
    status: Option<nat>,     // with `Unreached`: HTTP status of an error that bound no key
    verdict: Verdict,
    serial: nat)             // the next free id, for a step that creates a row or a Stripe object

  datatype Failure = CircuitOpened | Rejected | Transient | AmountMissing

  /** An attempt of `chargePayment` or `refundPayment`, at its next step or at its end. */
  datatype Attempt =
    | ChargeLookup(amount: int)
    | ChargeCall(amount: int)
    | ChargeSave(intent: nat)
    | ChargeDone(id: nat)
    | RefundLookup(known: Option<int>)
    | RefundProbe(amount: int)
    | RefundCall(intent: nat, row: Option<nat>)
    | RefundUpdate(id: nat)
    | RefundSave(intent: nat)
    | RefundDone
    | Threw(failure: Failure)

  function Cents(amount: int): int { 100 * amount }

  predicate IsStripeClientError(status: Option<nat>) {
    status.Some? && 400 <= status.value < 500 && status.value != 408 && status.value != 429
  }

  // ----- Stripe -----

  function FindIntent(intents: seq<Intent>, id: nat): Option<Intent> {
    if intents == [] then None else if intents[0].id == id then Some(intents[0]) else FindIntent(intents[1..], id)
  }

  function FindRefund(refunds: seq<Refund>, id: nat): Option<Refund> {
    if refunds == [] then None else if refunds[0].id == id then Some(refunds[0]) else FindRefund(refunds[1..], id)
  }

  function CreateIntent(b: Books, cents: int, luck: Luck): (Books, Reply) {
    match b.chargeKey
    case Some(bound) => (b, if bound.param == cents then bound.reply else Refused(400))
    case None =>
      match luck.verdict
      case Decline(code) => (b.(chargeKey := Some(Bound(cents, Refused(code)))), Refused(code))
      case _ =>
        var reply := Made(luck.serial);
        (b.(intents := b.intents + [Intent(luck.serial, cents, luck.verdict == Approve)],
            chargeKey := Some(Bound(cents, reply))), reply)
  }

  function CreateRefund(b: Books, intent: nat, luck: Luck): (Books, Reply) {
    match b.refundKey
    case Some(bound) => (b, if bound.param == intent then bound.reply else Refused(400))
    case None =>
      var found := FindIntent(b.intents, intent);
      if luck.verdict.Decline? || found.None? then
        var reply := Refused(if luck.verdict.Decline? then luck.verdict.code else 404);
        (b.(refundKey := Some(Bound(intent, reply))), reply)
      else
        var reply := Made(luck.serial);
        (b.(refunds := b.refunds + [Refund(luck.serial, intent, found.value.amount, luck.verdict == Approve)],
            refundKey := Some(Bound(intent, reply))), reply)
  }

  predicate IntentSucceeded(b: Books, id: nat) {
    var found := FindIntent(b.intents, id);
    found.Some? && found.value.succeeded
  }

  predicate RefundSucceeded(b: Books, id: nat) {
    var found := FindRefund(b.refunds, id);
    found.Some? && found.value.succeeded
  }

  // ----- the transaction table -----

  function FindRow(rows: seq<Txn>, onlySuccess: bool): Option<Txn> {
    if rows == [] then None
    else if onlySuccess && rows[0].status != SUCCESS then FindRow(rows[1..], onlySuccess)
    else Some(rows[0])
  }

  /** `order_id` is unique, so an insert fails when the order already has a row. */
  predicate InsertFits(b: Books) { b.rows == [] }

  function Insert(b: Books, id: nat, intent: Intent, status: TxnStatus): Books {
    b.(rows := b.rows + [Txn(id, intent.id, intent.amount, status)])
  }

  function MarkRefunded(rows: seq<Txn>, id: nat): seq<Txn> {
    if rows == [] then []
    else [if rows[0].id == id then rows[0].(status := REFUNDED) else rows[0]] + MarkRefunded(rows[1..], id)
  }

  // ----- one step of one attempt -----

  function ChargeFailure(luck: Luck): Failure {
    if luck.breakerOpen then CircuitOpened
    else if IsStripeClientError(luck.status) then Rejected
    else Transient
  }

  function RefundFailure(luck: Luck): Failure { if luck.breakerOpen then CircuitOpened else Transient }

  function Settle(net: Net, done: Attempt): Attempt { if net == Delivered then done else Threw(Transient) }

  function AttemptStep(b: Books, a: Attempt, luck: Luck): (Books, Attempt) {
    match a
    case ChargeLookup(amount) =>
      var found := FindRow(b.rows, true);
      (b, Settle(luck.net, if found.Some? then ChargeDone(found.value.id) else ChargeCall(amount)))
    case ChargeCall(amount) =>
      if luck.net == Unreached then (b, Threw(ChargeFailure(luck)))
      else
        var (b', reply) := CreateIntent(b, Cents(amount), luck);
        (b', Settle(luck.net, AfterCharge(b', reply)))
    case ChargeSave(intent) => SaveRow(b, intent, SUCCESS, luck)
    case RefundLookup(known) =>
      var found := FindRow(b.rows, false);
      (b, Settle(luck.net, AfterLookup(found, known)))
    case RefundProbe(amount) =>
      if luck.net == Unreached then (b, Threw(RefundFailure(luck)))
      else
        var (b', reply) := CreateIntent(b, Cents(amount), luck);
        (b', Settle(luck.net, AfterProbe(b', reply)))
    case RefundCall(intent, row) =>
      if luck.net == Unreached then (b, Threw(RefundFailure(luck)))
      else
        var (b', reply) := CreateRefund(b, intent, luck);
        (b', Settle(luck.net, AfterRefund(b', reply, intent, row)))
    case RefundUpdate(row) =>
      if luck.net == Unreached then (b, Threw(Transient))
      else (b.(rows := MarkRefunded(b.rows, row)), Settle(luck.net, RefundDone))
    case RefundSave(intent) => SaveRow(b, intent, REFUNDED, luck)
    case _ => (b, a)
  }

  function AfterCharge(b: Books, reply: Reply): Attempt {
    match reply
    case Refused(code) => Threw(if IsStripeClientError(Some(code)) then Rejected else Transient)
    case Made(id) => if IntentSucceeded(b, id) then ChargeSave(id) else Threw(Rejected)
  }

  function AfterLookup(found: Option<Txn>, known: Option<int>): Attempt {
    match found
    case Some(txn) => if txn.status == REFUNDED then RefundDone else RefundCall(txn.intent, Some(txn.id))
    case None => if known.None? then Threw(AmountMissing) else RefundProbe(known.value)
  }

  function AfterProbe(b: Books, reply: Reply): Attempt {
    match reply
    case Refused(_) => Threw(Transient)
    case Made(id) => if IntentSucceeded(b, id) then RefundCall(id, None) else RefundDone
  }

  function AfterRefund(b: Books, reply: Reply, intent: nat, row: Option<nat>): Attempt {
    match reply
    case Refused(_) => Threw(Transient)
    case Made(id) =>
      if !RefundSucceeded(b, id) then Threw(Transient)
      else if row.Some? then RefundUpdate(row.value) else RefundSave(intent)
  }

  function SaveRow(b: Books, intent: nat, status: TxnStatus, luck: Luck): (Books, Attempt) {
    var found := FindIntent(b.intents, intent);
    if luck.net == Unreached || !InsertFits(b) || found.None? then (b, Threw(Transient))
    else (Insert(b, luck.serial + 1, found.value, status),
          Settle(luck.net, if status == SUCCESS then ChargeDone(luck.serial + 1) else RefundDone))
  }

  // ----- money -----

  function Captured(intents: seq<Intent>): int {
    if intents == [] then 0 else (if intents[0].succeeded then intents[0].amount else 0) + Captured(intents[1..])
  }

  function Returned(refunds: seq<Refund>): int {
    if refunds == [] then 0 else (if refunds[0].succeeded then refunds[0].amount else 0) + Returned(refunds[1..])
  }

  /** Money taken for the order and not given back. */
  function Kept(b: Books): int { Captured(b.intents) - Returned(b.refunds) }

  // ----- the invariant of one order's books, for a bill of `due` -----

  /** The charge key replays a successful intent. */
  predicate Paid(b: Books) { Opened(b) && b.intents != [] && b.intents[0].succeeded }

  predicate Opened(b: Books) { b.chargeKey.Some? && b.chargeKey.value.reply.Made? }

  /** `id` is the intent that the charge key replays. */
  predicate IsIntent(b: Books, id: nat) { b.chargeKey.Some? && b.chargeKey.value.reply == Made(id) }

  /** The refund key replays a successful refund. */
  predicate Repaid(b: Books) {
    b.refundKey.Some? && b.refundKey.value.reply.Made? && b.refunds != [] && b.refunds[0].succeeded
  }

  /** Nothing is held and nothing can be: the refund is on record, or the key replays an unsuccessful intent. */
  predicate Settled(b: Books) {
    || (b.rows != [] && b.rows[0].status == REFUNDED)
    || (Opened(b) && !Paid(b))
  }

  predicate HasRow(b: Books, id: nat) { b.rows != [] && b.rows[0].id == id }

  predicate ChargeKeyOk(b: Books, due: int) {
    match b.chargeKey
    case None => b.intents == []
    case Some(bound) =>
      && bound.param == Cents(due)
      && (bound.reply.Refused? ==> b.intents == [])
      && (bound.reply.Made? ==> b.intents == [Intent(bound.reply.id, Cents(due), Paid(b))])
  }

  predicate RefundKeyOk(b: Books, due: int) {
    match b.refundKey
    case None => b.refunds == []
    case Some(bound) =>
      && Paid(b) && bound.param == b.intents[0].id
      && (bound.reply.Refused? ==> b.refunds == [])
      && (bound.reply.Made? ==> b.refunds == [Refund(bound.reply.id, b.intents[0].id, Cents(due), Repaid(b))])
  }

  predicate RowsOk(b: Books, due: int) {
    && |b.rows| <= 1
    && (b.rows != [] ==>
          && Paid(b)
          && b.rows[0].id > 0 && b.rows[0].intent == b.intents[0].id && b.rows[0].amount == Cents(due)
          && (b.rows[0].status == SUCCESS || (b.rows[0].status == REFUNDED && Repaid(b))))
  }

  predicate BooksOk(b: Books, due: int) {
    ChargeKeyOk(b, due) && RefundKeyOk(b, due) && RowsOk(b, due)
  }

  predicate AttemptOk(b: Books, a: Attempt, due: int) {
    match a
    case ChargeLookup(amount) => amount == due
    case ChargeCall(amount) => amount == due
    case ChargeSave(intent) => IsIntent(b, intent) && Paid(b)
    case ChargeDone(id) => HasRow(b, id)
    case RefundLookup(known) => known.Some? ==> known.value == due
    case RefundProbe(amount) => amount == due
    case RefundCall(intent, row) => IsIntent(b, intent) && Paid(b) && (row.Some? ==> HasRow(b, row.value))
    case RefundUpdate(row) => HasRow(b, row) && Repaid(b)
    case RefundSave(intent) => IsIntent(b, intent) && Paid(b) && Repaid(b)
    case RefundDone => Settled(b)
    case Threw(_) => true
  }

  /** What later steps never take back. */
  predicate Grows(b: Books, b': Books) {
    && (b.rows != [] ==> b'.rows != [] && b'.rows[0].id == b.rows[0].id)
    && (Paid(b) ==> Paid(b'))
    && (Repaid(b) ==> Repaid(b'))
    && (Settled(b) ==> Settled(b'))
    && (b.chargeKey.Some? ==> b'.chargeKey == b.chargeKey && b'.intents == b.intents)
    && (b.refundKey.Some? ==> b'.refundKey == b.refundKey && b'.refunds == b.refunds)
  }

  lemma RowsOfOne(rows: seq<Txn>, id: nat)
    requires |rows| <= 1
    ensures FindRow(rows, false) == (if rows == [] then None else Some(rows[0]))
    ensures FindRow(rows, true) == (if rows == [] || rows[0].status != SUCCESS then None else Some(rows[0]))
    ensures MarkRefunded(rows, id) ==
              if rows != [] && rows[0].id == id then [rows[0].(status := REFUNDED)] else rows
  {
    if rows != [] {
      assert rows[1..] == [];
      assert FindRow([], true) == None;
      assert MarkRefunded(rows, id) == [MarkRefunded(rows, id)[0]] + MarkRefunded([], id);
    }
  }

  lemma ObjectsOfOne(b: Books, id: nat)
    requires |b.intents| <= 1 && |b.refunds| <= 1
    ensures FindIntent(b.intents, id) == if b.intents != [] && b.intents[0].id == id then Some(b.intents[0]) else None
    ensures FindRefund(b.refunds, id) == if b.refunds != [] && b.refunds[0].id == id then Some(b.refunds[0]) else None
  {
    if b.intents != [] {
      assert FindIntent(b.intents[1..], id) == None;
    }
    if b.refunds != [] {
      assert FindRefund(b.refunds[1..], id) == None;
    }
  }

  lemma IntentCallOk(b: Books, due: int, luck: Luck)
    requires BooksOk(b, due)
    ensures
      var (b', reply) := CreateIntent(b, Cents(due), luck);
      && BooksOk(b', due) && Grows(b, b') && b'.rows == b.rows
      && b'.chargeKey.Some? && b'.chargeKey.value.reply == reply
      && (reply.Made? ==> IntentSucceeded(b', reply.id) == Paid(b'))
  {
    var (b', reply) := CreateIntent(b, Cents(due), luck);
    ObjectsOfOne(b', if reply.Made? then reply.id else 0);
  }

  lemma RefundCallOk(b: Books, due: int, intent: nat, luck: Luck)
    requires BooksOk(b, due) && Paid(b) && IsIntent(b, intent)
    ensures
      var (b', reply) := CreateRefund(b, intent, luck);
      && BooksOk(b', due) && Grows(b, b') && b'.rows == b.rows
      && b'.refundKey.Some? && b'.refundKey.value.reply == reply
      && (reply.Made? ==> RefundSucceeded(b', reply.id) == Repaid(b'))
  {
    var (b', reply) := CreateRefund(b, intent, luck);
    ObjectsOfOne(b, intent);
    ObjectsOfOne(b', if reply.Made? then reply.id else 0);
  }

  lemma SaveRowOk(b: Books, due: int, intent: nat, status: TxnStatus, luck: Luck)
    requires BooksOk(b, due) && Paid(b) && IsIntent(b, intent)
    requires status == SUCCESS || (status == REFUNDED && Repaid(b))
    ensures
      var (b', a') := SaveRow(b, intent, status, luck);
      BooksOk(b', due) && Grows(b, b') && AttemptOk(b', a', due)
  {
    ObjectsOfOne(b, intent);
  }

  lemma LookupOk(b: Books, a: Attempt, luck: Luck, due: int)
    requires BooksOk(b, due) && AttemptOk(b, a, due)
    requires a.ChargeLookup? || a.RefundLookup? || a.RefundUpdate?
    ensures
      var (b', a') := AttemptStep(b, a, luck);
      BooksOk(b', due) && Grows(b, b') && AttemptOk(b', a', due)
  {
    RowsOfOne(b.rows, if a.RefundUpdate? then a.id else 0);
  }

  lemma StepKeepsBooks(b: Books, a: Attempt, luck: Luck, due: int)
    requires BooksOk(b, due) && AttemptOk(b, a, due)
    ensures
      var (b', a') := AttemptStep(b, a, luck);
      BooksOk(b', due) && Grows(b, b') && AttemptOk(b', a', due)
  {
    match a
    case ChargeLookup(_) => LookupOk(b, a, luck, due);
    case RefundLookup(_) => LookupOk(b, a, luck, due);
    case RefundUpdate(_) => LookupOk(b, a, luck, due);
    case ChargeCall(_) => IntentCallOk(b, due, luck);
    case RefundProbe(_) => IntentCallOk(b, due, luck);
    case RefundCall(intent, _) => RefundCallOk(b, due, intent, luck);
    case ChargeSave(intent) => SaveRowOk(b, due, intent, SUCCESS, luck);
    case RefundSave(intent) => SaveRowOk(b, due, intent, REFUNDED, luck);
    case _ =>
  }

  lemma AttemptOkStays(b: Books, b': Books, a: Attempt, due: int)
    requires AttemptOk(b, a, due) && Grows(b, b')
    ensures AttemptOk(b', a, due)
  {
  }

  // ----- all the attempts for one order -----

  datatype Account = Account(books: Books, attempts: seq<Attempt>)

  datatype Event = Start(attempt: Attempt) | Advance(k: nat, luck: Luck)

  /** What may be started: a charge or refund of the bill, or a refund without an amount. */
  predicate MayStart(a: Attempt, due: int) {
    a == ChargeLookup(due) || a == RefundLookup(Some(due)) || a == RefundLookup(None)
  }

  function AccountStep(acc: Account, e: Event, due: int): Account {
    match e
    case Start(a) => if MayStart(a, due) then acc.(attempts := acc.attempts + [a]) else acc
    case Advance(k, luck) =>
      if k < |acc.attempts| then
        var (b', a') := AttemptStep(acc.books, acc.attempts[k], luck);
        Account(b', acc.attempts[k := a'])
      else acc
  }

  predicate AccountOk(acc: Account, due: int) {
    && BooksOk(acc.books, due)
    && forall i :: 0 <= i < |acc.attempts| ==> AttemptOk(acc.books, acc.attempts[i], due)
  }

  lemma AccountStepOk(acc: Account, e: Event, due: int)
    requires AccountOk(acc, due)
    ensures AccountOk(AccountStep(acc, e, due), due)
    ensures Grows(acc.books, AccountStep(acc, e, due).books)
  {
    if e.Advance? && e.k < |acc.attempts| {
      StepKeepsBooks(acc.books, acc.attempts[e.k], e.luck, due);
      var acc' := AccountStep(acc, e, due);
      forall i | 0 <= i < |acc'.attempts| ensures AttemptOk(acc'.books, acc'.attempts[i], due) {
        if i != e.k {
          AttemptOkStays(acc.books, acc'.books, acc.attempts[i], due);
        }
      }
    }
  }

  /** The attempt has not run into the missing amount, and is not about to. */
  predicate AmountKnown(b: Books, a: Attempt) {
    a != Threw(AmountMissing) && (a == RefundLookup(None) ==> b.rows != [])
  }

  predicate AmountsKnown(acc: Account) {
    forall i :: 0 <= i < |acc.attempts| ==> AmountKnown(acc.books, acc.attempts[i])
  }

  /** A refund without an amount is safe as long as it is only started once the order has a row. */
  lemma AmountsStayKnown(acc: Account, e: Event, due: int)
    requires AccountOk(acc, due) && AmountsKnown(acc)
    requires e == Start(RefundLookup(None)) ==> acc.books.rows != []
    ensures AmountsKnown(AccountStep(acc, e, due))
  {
    AccountStepOk(acc, e, due);
    if e.Advance? && e.k < |acc.attempts| {
      RowsOfOne(acc.books.rows, 0);
      assert AmountKnown(acc.books, acc.attempts[e.k]);
    }
  }

  function AccountRun(acc: Account, events: seq<Event>, due: int): Account
    decreases |events|
  {
    if events == [] then acc else AccountRun(AccountStep(acc, events[0], due), events[1..], due)
  }

  lemma {:induction false} AccountRunOk(acc: Account, events: seq<Event>, due: int)
    requires AccountOk(acc, due)
    ensures AccountOk(AccountRun(acc, events, due), due)
    ensures Grows(acc.books, AccountRun(acc, events, due).books)
    decreases |events|
  {
    if events != [] {
      AccountStepOk(acc, events[0], due);
      AccountRunOk(AccountStep(acc, events[0], due), events[1..], due);
    }
  }

  // ----- what the invariant means -----

  lemma MoneyInBooks(b: Books, due: int)
    requires BooksOk(b, due)
    ensures Captured(b.intents) == if Paid(b) then Cents(due) else 0
    ensures Returned(b.refunds) == if Repaid(b) then Cents(due) else 0
    ensures Repaid(b) ==> Paid(b)
    ensures Settled(b) ==> Paid(b) == Repaid(b)
  {
    if b.intents != [] {
      assert b.intents[1..] == [];
    }
    if b.refunds != [] {
      assert b.refunds[1..] == [];
    }
  }

  /**
   * Charging is exactly-once: over every run of overlapping attempts, at most one intent of the
   * whole bill succeeds, at most one row exists, and all attempts that return give its id.
   */
  lemma ChargeExactlyOnce(events: seq<Event>, due: int, i: nat, j: nat)
    ensures
      var acc := AccountRun(Account(EMPTY_BOOKS, []), events, due);
      && |acc.books.intents| <= 1 && |acc.books.rows| <= 1
      && (Captured(acc.books.intents) == 0 || Captured(acc.books.intents) == Cents(due))
      && (i < |acc.attempts| && acc.attempts[i].ChargeDone? ==>
            Captured(acc.books.intents) == Cents(due) && HasRow(acc.books, acc.attempts[i].id))
      && (i < |acc.attempts| && j < |acc.attempts| && acc.attempts[i].ChargeDone? && acc.attempts[j].ChargeDone? ==>
            acc.attempts[i].id == acc.attempts[j].id)
  {
    AccountRunOk(Account(EMPTY_BOOKS, []), events, due);
    var acc := AccountRun(Account(EMPTY_BOOKS, []), events, due);
    MoneyInBooks(acc.books, due);
  }

  /** Refunds never exceed what was captured, happen at most once, and back every REFUNDED row. */
  lemma RefundAtMostOnce(events: seq<Event>, due: int)
    ensures
      var b := AccountRun(Account(EMPTY_BOOKS, []), events, due).books;
      && |b.refunds| <= 1
      && (Returned(b.refunds) == 0 || Returned(b.refunds) == Captured(b.intents))
      && (due >= 0 ==> Returned(b.refunds) <= Captured(b.intents))
      && (forall r :: 0 <= r < |b.rows| && b.rows[r].status == REFUNDED ==>
            b.rows[r].amount == Captured(b.intents) == Returned(b.refunds))
  {
    AccountRunOk(Account(EMPTY_BOOKS, []), events, due);
    MoneyInBooks(AccountRun(Account(EMPTY_BOOKS, []), events, due).books, due);
  }

  lemma {:induction false} AccountRunConcat(acc: Account, a: seq<Event>, b: seq<Event>, due: int)
    ensures AccountRun(acc, a + b, due) == AccountRun(AccountRun(acc, a, due), b, due)
    decreases |a|
  {
    if a == [] {
      assert a + b == b;
    } else {
      assert (a + b)[1..] == a[1..] + b;
      AccountRunConcat(AccountStep(acc, a[0], due), a[1..], b, due);
    }
  }

  /**
   * Once some refund attempt has returned, the net is zero and stays zero in every continuation:
   * no late or retried charge captures again or leaves a SUCCESS row.
   */
  lemma RefundReturnedIsFinal(before: seq<Event>, later: seq<Event>, due: int, k: nat)
    requires
      var acc := AccountRun(Account(EMPTY_BOOKS, []), before, due);
      k < |acc.attempts| && acc.attempts[k] == RefundDone
    ensures
      var b := AccountRun(Account(EMPTY_BOOKS, []), before + later, due).books;
      && Kept(b) == 0
      && (forall r :: 0 <= r < |b.rows| ==> b.rows[r].status == REFUNDED)
  {
    var start := Account(EMPTY_BOOKS, []);
    AccountRunOk(start, before, due);
    AccountRunConcat(start, before, later, due);
    AccountRunOk(AccountRun(start, before, due), later, due);
    MoneyInBooks(AccountRun(start, before + later, due).books, due);
  }

  // ----- when the refund can return at all -----

  /** The charge key replays an error: the card was declined, say. */
  predicate ChargeRefused(b: Books) { b.chargeKey.Some? && b.chargeKey.value.reply.Refused? }

  function RunAttempt(b: Books, a: Attempt, lucks: seq<Luck>): (Books, Attempt)
    decreases |lucks|
  {
    if lucks == [] then (b, a)
    else
      var (b', a') := AttemptStep(b, a, lucks[0]);
      RunAttempt(b', a', lucks[1..])
  }

  /** Nothing goes wrong on the way and Stripe approves whatever it decides. */
  predicate Smooth(lucks: seq<Luck>) {
    forall i :: 0 <= i < |lucks| ==> lucks[i].net == Delivered && lucks[i].verdict == Approve
  }

  predicate RefundRefused(b: Books) {
    b.refundKey.Some? && !Repaid(b)
  }

  lemma {:induction false} EndedStays(b: Books, a: Attempt, lucks: seq<Luck>)
    ensures a.ChargeDone? || a.RefundDone? || a.Threw? ==> RunAttempt(b, a, lucks) == (b, a)
    decreases |lucks|
  {
    if lucks != [] {
      EndedStays(b, a, lucks[1..]);
    }
  }

  /** From the refund call on, only a refund key that replays a failure stands in the way. */
  lemma SmoothRefundCallReturnsIff(b: Books, due: int, a: Attempt, lucks: seq<Luck>)
    requires BooksOk(b, due) && AttemptOk(b, a, due) && a.RefundCall? && (a.row.None? ==> b.rows == [])
    requires 2 <= |lucks| <= 3 && Smooth(lucks)
    ensures RunAttempt(b, a, lucks).1 == RefundDone <==> !RefundRefused(b)
  {
    RefundCallOk(b, due, a.intent, lucks[0]);
    var (b1, a1) := AttemptStep(b, a, lucks[0]);
    ObjectsOfOne(b1, a.intent);
    var (b2, a2) := AttemptStep(b1, a1, lucks[1]);
    var t1 := lucks[1..];
    var t2 := t1[1..];
    assert t1[0] == lucks[1];
    EndedStays(b2, a2, t2);
  }

  /** The refund has what it needs to go by: the bill, or a row on record. */
  predicate Informed(b: Books, known: Option<int>, due: int) {
    known == Some(due) || (known.None? && b.rows != [])
  }

  /**
   * With nothing else going wrong, a refund returns exactly when Stripe replays no error for the
   * charge and no unsuccessful refund. After a declined card it never does.
   */
  lemma SmoothRefundReturnsIff(b: Books, due: int, known: Option<int>, lucks: seq<Luck>)
    requires BooksOk(b, due) && Informed(b, known, due)
    requires |lucks| == 4 && Smooth(lucks)
    ensures RunAttempt(b, RefundLookup(known), lucks).1 == RefundDone <==>
              !ChargeRefused(b) && !RefundRefused(b)
  {
    RowsOfOne(b.rows, 0);
    var (b1, a1) := AttemptStep(b, RefundLookup(known), lucks[0]);
    var t1 := lucks[1..];
    var t2 := t1[1..];
    assert t1[0] == lucks[1] && t2[0] == lucks[2];
    if a1.RefundCall? {
      SmoothRefundCallReturnsIff(b1, due, a1, t1);
    } else {
      IntentCallOk(b, due, lucks[1]);
      var (b2, a2) := AttemptStep(b1, a1, lucks[1]);
      assert RunAttempt(b1, a1, t1) == RunAttempt(b2, a2, t2);
      if a2.RefundCall? {
        SmoothRefundCallReturnsIff(b2, due, a2, t2);
      } else {
        EndedStays(b2, a2, t2);
      }
    }
  }

  /** Stripe replays an intent that did not succeed. */
  predicate ChargeHeld(b: Books) { Opened(b) && !Paid(b) }

  predicate HasStatus(b: Books, status: TxnStatus) { b.rows != [] && b.rows[0].status == status }

  /** Nothing on record stands in the way of a charge. */
  predicate ChargeOpen(b: Books) { !ChargeRefused(b) && !ChargeHeld(b) && !HasStatus(b, REFUNDED) }

  /** With nothing else going wrong, a charge returns exactly when nothing on record stands in its way. */
  lemma SmoothChargeReturnsIff(b: Books, due: int, lucks: seq<Luck>)
    requires BooksOk(b, due) && |lucks| == 3 && Smooth(lucks)
    ensures RunAttempt(b, ChargeLookup(due), lucks).1.ChargeDone? <==> ChargeOpen(b)
  {
    RowsOfOne(b.rows, 0);
    IntentCallOk(b, due, lucks[1]);
    ThreeSteps(b, ChargeLookup(due), lucks);
    var (b1, a1) := AttemptStep(b, ChargeLookup(due), lucks[0]);
    var (b2, a2) := AttemptStep(b1, a1, lucks[1]);
    if a2.ChargeSave? {
      ObjectsOfOne(b2, a2.intent);
    }
  }

  lemma ThreeSteps(b: Books, a: Attempt, lucks: seq<Luck>)
    requires |lucks| == 3
    ensures
      var s1 := AttemptStep(b, a, lucks[0]);
      var s2 := AttemptStep(s1.0, s1.1, lucks[1]);
      RunAttempt(b, a, lucks) == AttemptStep(s2.0, s2.1, lucks[2])
  {
    var s1 := AttemptStep(b, a, lucks[0]);
    var s2 := AttemptStep(s1.0, s1.1, lucks[1]);
    var s3 := AttemptStep(s2.0, s2.1, lucks[2]);
    var t1, t2 := lucks[1..], lucks[1..][1..];
    assert RunAttempt(s3.0, s3.1, t2[1..]) == s3;
    assert RunAttempt(s2.0, s2.1, t2) == s3;
    assert RunAttempt(s1.0, s1.1, t1) == s3;
  }

  /**
   * What is on record already needs no Stripe: a charge of a charged order, and a refund of a refunded
   * one, return after a delivered lookup and change nothing, whatever would go wrong afterwards. With
   * nothing on record, a refund without an amount fails there.
   */
  lemma RecordedReturnsAtOnce(b: Books, due: int, known: Option<int>, lucks: seq<Luck>)
    requires BooksOk(b, due) && lucks != [] && lucks[0].net == Delivered
    ensures HasStatus(b, SUCCESS) ==> RunAttempt(b, ChargeLookup(due), lucks) == (b, ChargeDone(b.rows[0].id))
    ensures HasStatus(b, REFUNDED) ==> RunAttempt(b, RefundLookup(known), lucks) == (b, RefundDone)
    ensures b.rows == [] ==> RunAttempt(b, RefundLookup(None), lucks) == (b, Threw(AmountMissing))
  {
    EndedStays(b, Threw(AmountMissing), lucks[1..]);
    RowsOfOne(b.rows, 0);
    if b.rows != [] {
      EndedStays(b, ChargeDone(b.rows[0].id), lucks[1..]);
    }
    EndedStays(b, RefundDone, lucks[1..]);
  }

  // ----- which failures are final -----

  /** The code with which Stripe refuses the charge, now or again. */
  function Refusal(b: Books, verdict: Verdict): Option<nat> {
    match b.chargeKey
    case Some(bound) => if bound.reply.Refused? then Some(bound.reply.code) else None
    case None => if verdict.Decline? then Some(verdict.code) else None
  }

  /** The intent that Stripe answers with has not succeeded. */
  predicate Unsuccessful(b: Books, verdict: Verdict) {
    ChargeHeld(b) || (b.chargeKey.None? && verdict.Hold?)
  }

  /**
   * The failures after which the charge is not tried again: a status of 400 to 499 but neither 408 nor
   * 429, got without an answer under the key or as that answer, and an intent that did not succeed.
   */
  predicate ChargeIsFinal(b: Books, lucks: seq<Luck>)
    requires |lucks| == 3
  {
    lucks[0].net == Delivered && !HasStatus(b, SUCCESS) && CallIsFinal(b, lucks[1])
  }

  predicate CallIsFinal(b: Books, call: Luck) {
    match call.net
    case Unreached => !call.breakerOpen && call.status.Some? && FinalCode(call.status.value)
    case Delivered =>
      || Unsuccessful(b, call.verdict)
      || (Refusal(b, call.verdict).Some? && FinalCode(Refusal(b, call.verdict).value))
    case Lost => false
  }

  predicate FinalCode(code: nat) { 400 <= code <= 499 && code != 408 && code != 429 }

  lemma RejectedIffFinal(b: Books, due: int, lucks: seq<Luck>)
    requires BooksOk(b, due) && |lucks| == 3
    ensures RunAttempt(b, ChargeLookup(due), lucks).1 == Threw(Rejected) <==> ChargeIsFinal(b, lucks)
  {
    RowsOfOne(b.rows, 0);
    ThreeSteps(b, ChargeLookup(due), lucks);
    var (b1, a1) := AttemptStep(b, ChargeLookup(due), lucks[0]);
    if a1.ChargeCall? {
      ChargeCallRejectedIff(b, due, lucks[1]);
    }
  }

  /** The Stripe call alone decides, and the save that may follow it never rejects. */
  lemma ChargeCallRejectedIff(b: Books, due: int, call: Luck)
    requires BooksOk(b, due)
    ensures
      var a := AttemptStep(b, ChargeCall(due), call).1;
      && (a == Threw(Rejected) <==> CallIsFinal(b, call))
      && (a.ChargeSave? || a.Threw?)
  {
    IntentCallOk(b, due, call);
  }

  /** An open breaker, and nothing else, is answered as such, and Stripe has not seen the call. */
  lemma BreakerIsAnswered(b: Books, a: Attempt, luck: Luck)
    requires a.ChargeCall? || a.RefundProbe? || a.RefundCall?
    ensures
      var (b', a') := AttemptStep(b, a, luck);
      && (a' == Threw(CircuitOpened) <==> luck.net == Unreached && luck.breakerOpen)
      && (a' == Threw(CircuitOpened) ==> b' == b)
  {
    hide CreateIntent, CreateRefund;
  }

  /** A refund that Stripe holds back returns nothing, does not end, and stands in the way of every other. */
  lemma HeldRefundReturnsNothing(b: Books, due: int, a: Attempt, luck: Luck)
    requires BooksOk(b, due) && AttemptOk(b, a, due) && a.RefundCall? && b.refundKey.None?
    requires luck.net == Delivered && luck.verdict == Hold
    ensures
      var (b', a') := AttemptStep(b, a, luck);
      a' == Threw(Transient) && Returned(b'.refunds) == 0 && RefundRefused(b')
  {
    RefundCallOk(b, due, a.intent, luck);
    ObjectsOfOne(b, a.intent);
    var b' := AttemptStep(b, a, luck).0;
    assert b'.refunds == [Refund(luck.serial, a.intent, Cents(due), false)];
    MoneyInBooks(b', due);
  }

  /** No failure of a refund attempt is final. */
  lemma {:induction false} RefundsAreNeverRejected(b: Books, a: Attempt, lucks: seq<Luck>)
    requires IsRefundAttempt(a) || (a.Threw? && a.failure != Rejected)
    ensures RunAttempt(b, a, lucks).1 != Threw(Rejected)
    decreases |lucks|
  {
    if lucks != [] {
      var (b', a') := AttemptStep(b, a, lucks[0]);
      RefundsAreNeverRejected(b', a', lucks[1..]);
    }
  }

  predicate IsRefundAttempt(a: Attempt) {
    a.RefundLookup? || a.RefundProbe? || a.RefundCall? || a.RefundUpdate? || a.RefundSave? || a.RefundDone?
  }

  /** `chargePayment` under its retry policy, with the number of attempts made. */
  function ChargeTries(b: Books, amount: int, tries: seq<seq<Luck>>): (result: (Books, Attempt, nat))
    requires tries != []
    decreases |tries|
  {
    var (b', a') := RunAttempt(b, ChargeLookup(amount), tries[0]);
    if |tries| == 1 || a'.ChargeDone? || a' == Threw(Rejected) then (b', a', 1)
    else
      var rest := ChargeTries(b', amount, tries[1..]);
      (rest.0, rest.1, rest.2 + 1)
  }

  lemma {:induction false} RunKeepsBooks(b: Books, a: Attempt, lucks: seq<Luck>, due: int)
    requires BooksOk(b, due) && AttemptOk(b, a, due)
    ensures
      var (b', a') := RunAttempt(b, a, lucks);
      BooksOk(b', due) && Grows(b, b') && AttemptOk(b', a', due)
    decreases |lucks|
  {
    if lucks != [] {
      StepKeepsBooks(b, a, lucks[0], due);
      var (b1, a1) := AttemptStep(b, a, lucks[0]);
      RunKeepsBooks(b1, a1, lucks[1..], due);
    }
  }

  /**
   * A charge is tried again exactly when its first attempt neither returned nor failed for good: so
   * after 408, 429, any code from 500, an open breaker, an error without a status, a lost reply or a
   * failed read or write, and not after any other code from 400 or an unsuccessful intent.
   */
  lemma TriedAgainIff(b: Books, due: int, tries: seq<seq<Luck>>)
    requires BooksOk(b, due) && |tries| > 1 && |tries[0]| == 3
    ensures ChargeTries(b, due, tries).2 > 1 <==>
              !ChargeIsFinal(b, tries[0]) && !RunAttempt(b, ChargeLookup(due), tries[0]).1.ChargeDone?
  {
    RejectedIffFinal(b, due, tries[0]);
    ChargeTriesCount(RunAttempt(b, ChargeLookup(due), tries[0]).0, due, tries[1..]);
  }

  lemma {:induction false} ChargeTriesCount(b: Books, due: int, tries: seq<seq<Luck>>)
    requires tries != []
    ensures 1 <= ChargeTries(b, due, tries).2 <= |tries|
    decreases |tries|
  {
    var (b', a') := RunAttempt(b, ChargeLookup(due), tries[0]);
    if |tries| > 1 && !a'.ChargeDone? && a' != Threw(Rejected) {
      ChargeTriesCount(b', due, tries[1..]);
    }
  }

  /** Stripe did not take the charge call, for a reason that passes. */
  predicate Passing(luck: Luck) {
    luck.net == Unreached && (luck.breakerOpen || luck.status.None? ||
      luck.status.value == 408 || luck.status.value == 429 || luck.status.value < 400 || luck.status.value >= 500)
  }

  /** After such a failure - a rate limit, say - a smooth second attempt returns the row's id. */
  lemma PassingFailureThenSmooth(b: Books, due: int, tries: seq<seq<Luck>>)
    requires BooksOk(b, due) && ChargeOpen(b) && b.rows == []
    requires |tries| == 3 && |tries[0]| == |tries[1]| == 3
    requires tries[0][0].net == Delivered && Passing(tries[0][1]) && Smooth(tries[1])
    ensures
      var (b', a', made) := ChargeTries(b, due, tries);
      made == 2 && a'.ChargeDone? && HasRow(b', a'.id) && Captured(b'.intents) == Cents(due)
  {
    RowsOfOne(b.rows, 0);
    ThreeSteps(b, ChargeLookup(due), tries[0]);
    assert RunAttempt(b, ChargeLookup(due), tries[0]).0 == b;
    RejectedIffFinal(b, due, tries[0]);
    assert tries[1..][0] == tries[1];
    SmoothChargeReturnsIff(b, due, tries[1]);
    RunKeepsBooks(b, ChargeLookup(due), tries[1], due);
    MoneyInBooks(RunAttempt(b, ChargeLookup(due), tries[1]).0, due);
  }

  /** An intent that Stripe holds back captures nothing and ends the charge. */
  lemma HeldChargeIsRejected(b: Books, due: int, lucks: seq<Luck>)
    requires BooksOk(b, due) && b.chargeKey.None? && |lucks| == 3
    requires lucks[0].net == Delivered && lucks[1].net == Delivered && lucks[1].verdict == Hold
    ensures
      var (b', a') := RunAttempt(b, ChargeLookup(due), lucks);
      a' == Threw(Rejected) && Captured(b'.intents) == 0 && ChargeHeld(b')
  {
    RejectedIffFinal(b, due, lucks);
    RowsOfOne(b.rows, 0);
    ThreeSteps(b, ChargeLookup(due), lucks);
    var s1 := AttemptStep(b, ChargeLookup(due), lucks[0]);
    IntentCallOk(b, due, lucks[1]);
    var b2 := AttemptStep(s1.0, s1.1, lucks[1]).0;
    assert b2.intents == [Intent(lucks[1].serial, Cents(due), false)];
    MoneyInBooks(b2, due);
  }

  // ----- what can still come of an account -----

  const SMOOTH := Luck(Delivered, false, None, Approve, 0)

  /** `n` smooth steps of attempt `k`. */
  function SmoothSteps(k: nat, n: nat): seq<Event> { seq(n, i => Advance(k, SMOOTH)) }

  lemma {:induction false} SmoothStepsRun(acc: Account, k: nat, n: nat, due: int)
    requires k < |acc.attempts|
    ensures
      var done := RunAttempt(acc.books, acc.attempts[k], seq(n, i => SMOOTH));
      AccountRun(acc, SmoothSteps(k, n), due) == Account(done.0, acc.attempts[k := done.1])
    decreases n
  {
    if n == 0 {
      assert acc.attempts[k := acc.attempts[k]] == acc.attempts;
    } else {
      var (b', a') := AttemptStep(acc.books, acc.attempts[k], SMOOTH);
      assert SmoothSteps(k, n)[1..] == SmoothSteps(k, n - 1);
      assert seq(n, i => SMOOTH)[1..] == seq(n - 1, i => SMOOTH);
      SmoothStepsRun(Account(b', acc.attempts[k := a']), k, n - 1, due);
      var done := RunAttempt(b', a', seq(n - 1, i => SMOOTH));
      assert acc.attempts[k := a'][k := done.1] == acc.attempts[k := done.1];
    }
  }

  /** A new attempt that then runs smoothly. */
  function SmoothAttempt(acc: Account, a: Attempt, n: nat): seq<Event> {
    [Start(a)] + SmoothSteps(|acc.attempts|, n)
  }

  lemma SmoothAttemptRun(acc: Account, a: Attempt, n: nat, due: int)
    requires MayStart(a, due)
    ensures
      var done := RunAttempt(acc.books, a, seq(n, i => SMOOTH));
      AccountRun(acc, SmoothAttempt(acc, a, n), due) == Account(done.0, acc.attempts + [done.1])
  {
    var started := acc.(attempts := acc.attempts + [a]);
    assert SmoothAttempt(acc, a, n)[1..] == SmoothSteps(|acc.attempts|, n);
    SmoothStepsRun(started, |acc.attempts|, n, due);
    var done := RunAttempt(acc.books, a, seq(n, i => SMOOTH));
    assert started.attempts[|acc.attempts| := done.1] == acc.attempts + [done.1];
  }

  /** Some continuation of the account's attempts ends with a refund that returned. */
  ghost predicate RefundCanReturn(acc: Account, due: int) {
    exists events, k: nat ::
      k < |AccountRun(acc, events, due).attempts| && AccountRun(acc, events, due).attempts[k] == RefundDone
  }

  lemma SmoothRefundRun(acc: Account, known: Option<int>, due: int)
    requires AccountOk(acc, due) && Informed(acc.books, known, due)
    requires !ChargeRefused(acc.books) && !RefundRefused(acc.books)
    ensures
      var acc' := AccountRun(acc, SmoothAttempt(acc, RefundLookup(known), 4), due);
      && |acc'.attempts| == |acc.attempts| + 1 && acc'.attempts[|acc.attempts|] == RefundDone
      && AccountOk(acc', due) && Grows(acc.books, acc'.books)
  {
    SmoothRefundReturnsIff(acc.books, due, known, seq(4, i => SMOOTH));
    SmoothAttemptRun(acc, RefundLookup(known), 4, due);
    AccountRunOk(acc, SmoothAttempt(acc, RefundLookup(known), 4), due);
  }

  /** What Stripe refused for good, it refuses in every continuation. */
  lemma RefusalsStay(b: Books, b': Books, due: int)
    requires BooksOk(b, due) && BooksOk(b', due) && Grows(b, b')
    requires ChargeRefused(b) || RefundRefused(b)
    ensures ChargeRefused(b) ==> ChargeRefused(b')
    ensures RefundRefused(b) ==> RefundRefused(b') && Paid(b')
    ensures !Settled(b')
  {
  }

  /**
   * Whatever attempts are under way, some refund can still return if and only if neither key replays
   * a refusal: with one that does, no number of attempts in any interleaving ever returns.
   */
  lemma RefundCanReturnIff(acc: Account, due: int)
    requires AccountOk(acc, due)
    ensures RefundCanReturn(acc, due) <==> !ChargeRefused(acc.books) && !RefundRefused(acc.books)
  {
    if !ChargeRefused(acc.books) && !RefundRefused(acc.books) {
      SmoothRefundRun(acc, Some(due), due);
      var events := SmoothAttempt(acc, RefundLookup(Some(due)), 4);
      assert AccountRun(acc, events, due).attempts[|acc.attempts|] == RefundDone;
    } else if RefundCanReturn(acc, due) {
      var events, k: nat :|
        k < |AccountRun(acc, events, due).attempts| && AccountRun(acc, events, due).attempts[k] == RefundDone;
      AccountRunOk(acc, events, due);
      RefusalsStay(acc.books, AccountRun(acc, events, due).books, due);
    }
  }

  /** A late charge of an order whose key was never used captures the bill. */
  lemma LateChargeCaptures(acc: Account, due: int)
    requires AccountOk(acc, due) && acc.books.chargeKey.None?
    ensures
      var acc' := AccountRun(acc, SmoothAttempt(acc, ChargeLookup(due), 2), due);
      && AccountOk(acc', due) && Paid(acc'.books) && !Repaid(acc'.books)
  {
    RowsOfOne(acc.books.rows, 0);
    SmoothAttemptRun(acc, ChargeLookup(due), 2, due);
    AccountRunOk(acc, SmoothAttempt(acc, ChargeLookup(due), 2), due);
    var lucks := seq(2, i => SMOOTH);
    assert lucks[1..] == [SMOOTH] && lucks[1..][1..] == [];
    var (b1, a1) := AttemptStep(acc.books, ChargeLookup(due), SMOOTH);
    var (b2, a2) := AttemptStep(b1, a1, SMOOTH);
    assert RunAttempt(b1, a1, [SMOOTH]) == RunAttempt(b2, a2, []);
  }

  // ----- attempts under way that may still repay -----

  /** The attempt has yet to ask Stripe for the refund. */
  predicate MayRepay(a: Attempt) { a.RefundLookup? || a.RefundProbe? || a.RefundCall? }

  predicate NoneMayRepay(acc: Account) {
    forall i :: 0 <= i < |acc.attempts| ==> !MayRepay(acc.attempts[i])
  }

  /** Nothing that is under way returns the money, and no attempt to come may start a refund. */
  predicate StaysPaid(acc: Account) {
    Paid(acc.books) && !Repaid(acc.books) && (acc.books.refundKey.Some? || NoneMayRepay(acc))
  }

  lemma StaysPaidStep(acc: Account, e: Event, due: int)
    requires AccountOk(acc, due) && StaysPaid(acc)
    requires e.Start? ==> !MayRepay(e.attempt) || acc.books.refundKey.Some?
    ensures StaysPaid(AccountStep(acc, e, due))
  {
    AccountStepOk(acc, e, due);
    if e.Advance? && e.k < |acc.attempts| {
      assert AttemptOk(acc.books, acc.attempts[e.k], due);
    }
  }

  /** A refund attempt under way for a paid order can still go through. */
  lemma PendingRefundRepays(acc: Account, due: int, k: nat) returns (events: seq<Event>)
    requires AccountOk(acc, due) && k < |acc.attempts| && MayRepay(acc.attempts[k])
    requires Paid(acc.books) && acc.books.rows != [] && acc.books.refundKey.None?
    ensures forall i :: 0 <= i < |events| ==> events[i].Advance?
    ensures AccountOk(AccountRun(acc, events, due), due) && Repaid(AccountRun(acc, events, due).books)
  {
    var a := acc.attempts[k];
    assert AttemptOk(acc.books, a, due);
    if a.RefundCall? {
      events := SmoothSteps(k, 1);
      SmoothStepsRun(acc, k, 1, due);
      RefundCallRepays(acc.books, a, due);
      assert RunAttempt(acc.books, a, seq(1, i => SMOOTH)).0 == AttemptStep(acc.books, a, SMOOTH).0;
    } else {
      events := SmoothSteps(k, 2);
      SmoothStepsRun(acc, k, 2, due);
      RowsOfOne(acc.books.rows, 0);
      IntentCallOk(acc.books, due, SMOOTH);
      StepKeepsBooks(acc.books, a, SMOOTH, due);
      var (b1, a1) := AttemptStep(acc.books, a, SMOOTH);
      RefundCallRepays(b1, a1, due);
      var lucks := seq(2, i => SMOOTH);
      assert lucks[1..] == [SMOOTH] && [SMOOTH][1..] == [];
      assert RunAttempt(b1, a1, [SMOOTH]).0 == AttemptStep(b1, a1, SMOOTH).0;
    }
    AccountRunOk(acc, events, due);
  }

  lemma RefundCallRepays(b: Books, a: Attempt, due: int)
    requires BooksOk(b, due) && AttemptOk(b, a, due) && a.RefundCall? && b.refundKey.None?
    ensures Repaid(AttemptStep(b, a, SMOOTH).0)
  {
    ObjectsOfOne(b, a.intent);
  }

  /** No run of attempts, however long, makes a refund return while the charge key replays an error. */
  lemma DeclinedChargeBlocksEveryRefund(acc: Account, events: seq<Event>, due: int, k: nat)
    requires AccountOk(acc, due) && ChargeRefused(acc.books)
    requires k < |AccountRun(acc, events, due).attempts|
    ensures AccountRun(acc, events, due).attempts[k] != RefundDone
    ensures Kept(AccountRun(acc, events, due).books) == 0
  {
    AccountRunOk(acc, events, due);
    MoneyInBooks(AccountRun(acc, events, due).books, due);
  }
}
