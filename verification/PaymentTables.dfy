/**
 * All orders together: one transaction table, one Stripe account, and one set of idempotency keys
 * by their full text. What an attempt for one order does here is exactly the step of `Payment` on
 * that order's part, and nothing at all on the part of any other order.
 */
module PaymentTables {
  import opened Common
  import opened Payment

  /** A row or object with the order that it is for. */
  datatype For<T> = For(order: nat, item: T)

  datatype Tables = Tables(
    rows: seq<For<Txn>>,
    intents: seq<For<Intent>>,
    refunds: seq<For<Refund>>,
    keys: map<string, Bound>)

  // ----- idempotency keys -----

  function Decimal(n: nat): string {
    if n < 10 then ["0123456789"[n]] else Decimal(n / 10) + ["0123456789"[n % 10]]
  }

  function ChargeKey(order: nat): string { "charge_order_" + Decimal(order) }

  function RefundKey(order: nat): string { "refund_order_" + Decimal(order) }

  lemma DecimalLength(n: nat)
    ensures |Decimal(n)| > 0
    ensures |Decimal(n)| == 1 <==> n < 10
  {
  }

  lemma {:induction false} DecimalIsInjective(a: nat, b: nat)
    requires Decimal(a) == Decimal(b)
    ensures a == b
  {
    var da, db := Decimal(a), Decimal(b);
    DecimalLength(a);
    DecimalLength(b);
    assert da[|da| - 1] == "0123456789"[a % 10] && db[|db| - 1] == "0123456789"[b % 10];
    SameDigit(a % 10, b % 10);
    if a >= 10 {
      assert da[..|da| - 1] == Decimal(a / 10) && db[..|db| - 1] == Decimal(b / 10);
      DecimalIsInjective(a / 10, b / 10);
    }
  }

  lemma SameDigit(a: nat, b: nat)
    requires a < 10 && b < 10 && "0123456789"[a] == "0123456789"[b]
    ensures a == b
  {
  }

  /** No two orders share a key, and no charge key is a refund key. */
  lemma KeysNeverMeet(a: nat, b: nat)
    ensures ChargeKey(a) == ChargeKey(b) <==> a == b
    ensures RefundKey(a) == RefundKey(b) <==> a == b
    ensures ChargeKey(a) != RefundKey(b)
  {
    assert ChargeKey(a)[13..] == Decimal(a) && ChargeKey(b)[13..] == Decimal(b);
    assert RefundKey(a)[13..] == Decimal(a) && RefundKey(b)[13..] == Decimal(b);
    if Decimal(a) == Decimal(b) {
      DecimalIsInjective(a, b);
    }
    assert ChargeKey(a)[0] != RefundKey(b)[0];
  }

  // ----- one order's part -----

  function Select<T>(all: seq<For<T>>, order: nat): seq<T> {
    if all == [] then []
    else
      var last := all[|all| - 1];
      Select(all[..|all| - 1], order) + (if last.order == order then [last.item] else [])
  }

  function KeyAt(t: Tables, key: string): Option<Bound> { if key in t.keys then Some(t.keys[key]) else None }

  function Part(t: Tables, order: nat): Books {
    Books(Select(t.rows, order), Select(t.intents, order), Select(t.refunds, order),
          KeyAt(t, ChargeKey(order)), KeyAt(t, RefundKey(order)))
  }

  // ----- one step of one attempt on the shared tables -----

  function FindRowFor(rows: seq<For<Txn>>, order: nat, onlySuccess: bool): Option<Txn> {
    FindRow(Select(rows, order), onlySuccess)   // WHERE order_id = ... [AND status = 'SUCCESS']
  }

  /** A Stripe object by its id: ids are handed out in order, over all orders. */
  function IntentById(t: Tables, id: nat): Option<Intent> {
    if id < |t.intents| then Some(t.intents[id].item) else None
  }

  function RefundById(t: Tables, id: nat): Option<Refund> {
    if id < |t.refunds| then Some(t.refunds[id].item) else None
  }

  function StripeCharge(t: Tables, order: nat, cents: int, verdict: Verdict): (Tables, Reply) {
    var key := ChargeKey(order);
    if key in t.keys then (t, if t.keys[key].param == cents then t.keys[key].reply else Refused(400))
    else if verdict.Decline? then
      var reply := Refused(verdict.code);
      (t.(keys := t.keys[key := Bound(cents, reply)]), reply)
    else
      var id := |t.intents|;
      (t.(intents := t.intents + [For(order, Intent(id, cents, verdict == Approve))],
          keys := t.keys[key := Bound(cents, Made(id))]), Made(id))
  }

  function StripeRefund(t: Tables, order: nat, intent: nat, verdict: Verdict): (Tables, Reply) {
    var key := RefundKey(order);
    if key in t.keys then (t, if t.keys[key].param == intent then t.keys[key].reply else Refused(400))
    else
      var found := IntentById(t, intent);
      if verdict.Decline? || found.None? then
        var reply := Refused(if verdict.Decline? then verdict.code else 404);
        (t.(keys := t.keys[key := Bound(intent, reply)]), reply)
      else
        var id := |t.refunds|;
        (t.(refunds := t.refunds + [For(order, Refund(id, intent, found.value.amount, verdict == Approve))],
            keys := t.keys[key := Bound(intent, Made(id))]), Made(id))
  }

  /** `order_id` and `stripe_payment_id` are both unique over the whole table. */
  predicate RowFits(t: Tables, order: nat, intent: nat) {
    forall i :: 0 <= i < |t.rows| ==> t.rows[i].order != order && t.rows[i].item.intent != intent
  }

  function SaveFor(t: Tables, order: nat, intent: nat, status: TxnStatus, net: Net): (Tables, Attempt) {
    var found := IntentById(t, intent);
    if net == Unreached || !RowFits(t, order, intent) || found.None? then (t, Threw(Transient))
    else
      var id := |t.rows| + 1;
      (t.(rows := t.rows + [For(order, Txn(id, intent, found.value.amount, status))]),
       Settle(net, if status == SUCCESS then ChargeDone(id) else RefundDone))
  }

  /** UPDATE ... WHERE id = ... */
  function MarkById(rows: seq<For<Txn>>, id: nat): seq<For<Txn>> {
    seq(|rows|, i requires 0 <= i < |rows| =>
      if rows[i].item.id == id then rows[i].(item := rows[i].item.(status := REFUNDED)) else rows[i])
  }

  predicate Good(found: Option<Intent>) { found.Some? && found.value.succeeded }

  function ChargeReplied(t: Tables, reply: Reply): Attempt {
    match reply
    case Refused(code) => Threw(if IsStripeClientError(Some(code)) then Rejected else Transient)
    case Made(id) => if Good(IntentById(t, id)) then ChargeSave(id) else Threw(Rejected)
  }

  function ProbeReplied(t: Tables, reply: Reply): Attempt {
    match reply
    case Refused(_) => Threw(Transient)
    case Made(id) => if Good(IntentById(t, id)) then RefundCall(id, None) else RefundDone
  }

  function RefundReplied(t: Tables, reply: Reply, intent: nat, row: Option<nat>): Attempt {
    match reply
    case Refused(_) => Threw(Transient)
    case Made(id) =>
      var found := RefundById(t, id);
      if found.None? || !found.value.succeeded then Threw(Transient)
      else if row.Some? then RefundUpdate(row.value) else RefundSave(intent)
  }

  function TableStep(t: Tables, order: nat, a: Attempt, luck: Luck): (Tables, Attempt) {
    match a
    case ChargeLookup(amount) =>
      var found := FindRowFor(t.rows, order, true);
      (t, Settle(luck.net, if found.Some? then ChargeDone(found.value.id) else ChargeCall(amount)))
    case ChargeCall(amount) =>
      if luck.net == Unreached then (t, Threw(ChargeFailure(luck)))
      else
        var (t', reply) := StripeCharge(t, order, Cents(amount), luck.verdict);
        (t', Settle(luck.net, ChargeReplied(t', reply)))
    case ChargeSave(intent) => SaveFor(t, order, intent, SUCCESS, luck.net)
    case RefundLookup(known) => (t, Settle(luck.net, AfterLookup(FindRowFor(t.rows, order, false), known)))
    case RefundProbe(amount) =>
      if luck.net == Unreached then (t, Threw(RefundFailure(luck)))
      else
        var (t', reply) := StripeCharge(t, order, Cents(amount), luck.verdict);
        (t', Settle(luck.net, ProbeReplied(t', reply)))
    case RefundCall(intent, row) =>
      if luck.net == Unreached then (t, Threw(RefundFailure(luck)))
      else
        var (t', reply) := StripeRefund(t, order, intent, luck.verdict);
        (t', Settle(luck.net, RefundReplied(t', reply, intent, row)))
    case RefundUpdate(id) =>
      if luck.net == Unreached then (t, Threw(Transient))
      else (t.(rows := MarkById(t.rows, id)), Settle(luck.net, RefundDone))
    case RefundSave(intent) => SaveFor(t, order, intent, REFUNDED, luck.net)
    case _ => (t, a)
  }

  // ----- the tables' own invariant: ids are handed out in order -----

  predicate Numbered(t: Tables) {
    && (forall i :: 0 <= i < |t.rows| ==> t.rows[i].item.id == i + 1)
    && (forall i :: 0 <= i < |t.intents| ==> t.intents[i].item.id == i)
    && (forall i :: 0 <= i < |t.refunds| ==> t.refunds[i].item.id == i)
  }

  ghost predicate TablesOk(t: Tables, due: nat -> int) {
    Numbered(t) && forall o: nat :: BooksOk(Part(t, o), due(o))
  }

  lemma {:induction false} SelectAppend<T>(all: seq<For<T>>, one: For<T>, order: nat)
    ensures Select(all + [one], order) == Select(all, order) + (if one.order == order then [one.item] else [])
  {
    assert (all + [one])[..|all|] == all;
  }

  lemma {:induction false} SelectedFrom<T>(all: seq<For<T>>, order: nat, k: nat) returns (i: nat)
    requires k < |Select(all, order)|
    ensures i < |all| && all[i] == For(order, Select(all, order)[k])
  {
    var last := |all| - 1;
    if k < |Select(all[..last], order)| {
      i := SelectedFrom(all[..last], order, k);
    } else {
      i := last;
    }
  }

  lemma {:induction false} SelectedInto<T>(all: seq<For<T>>, i: nat)
    requires i < |all|
    ensures all[i].item in Select(all, all[i].order)
  {
    var last := |all| - 1;
    if i < last {
      SelectedInto(all[..last], i);
    }
  }

  /** Marking by id marks each order's part by id. */
  lemma {:induction false} SelectMarked(rows: seq<For<Txn>>, id: nat, order: nat)
    ensures Select(MarkById(rows, id), order) == MarkRefunded(Select(rows, order), id)
  {
    if rows != [] {
      var last := |rows| - 1;
      assert MarkById(rows, id)[..last] == MarkById(rows[..last], id);
      SelectMarked(rows[..last], id, order);
      MarkConcat(Select(rows[..last], order), if rows[last].order == order then [rows[last].item] else [], id);
    }
  }

  lemma {:induction false} MarkConcat(a: seq<Txn>, b: seq<Txn>, id: nat)
    ensures MarkRefunded(a + b, id) == MarkRefunded(a, id) + MarkRefunded(b, id)
  {
    if a == [] {
      assert a + b == b;
    } else {
      assert (a + b)[1..] == a[1..] + b;
      MarkConcat(a[1..], b, id);
    }
  }

  lemma {:induction false} MarkOfAbsent(rows: seq<Txn>, id: nat)
    requires forall i :: 0 <= i < |rows| ==> rows[i].id != id
    ensures MarkRefunded(rows, id) == rows
  {
    if rows != [] {
      MarkOfAbsent(rows[1..], id);
    }
  }

  // ----- the shared step is the order's own step -----

  /** The id that the tables hand out next to the step. */
  function NextId(t: Tables, a: Attempt): nat {
    if a.ChargeSave? || a.RefundSave? then |t.rows| else if a.RefundCall? then |t.refunds| else |t.intents|
  }

  /** What the order's own step would do with that id. */
  function OwnStep(t: Tables, order: nat, a: Attempt, luck: Luck): (Books, Attempt) {
    AttemptStep(Part(t, order), a, luck.(serial := NextId(t, a)))
  }

  lemma IntentByIdIsOwn(t: Tables, order: nat, due: int, id: nat)
    requires Numbered(t) && BooksOk(Part(t, order), due) && IsIntent(Part(t, order), id)
    ensures IntentById(t, id) == FindIntent(Part(t, order).intents, id) == Some(Part(t, order).intents[0])
    ensures id < |t.intents| && t.intents[id].order == order
  {
    ObjectsOfOne(Part(t, order), id);
    var i := SelectedFrom(t.intents, order, 0);
  }

  lemma ChargeIsOwnStep(t: Tables, order: nat, cents: int, luck: Luck, other: nat)
    requires Numbered(t) && luck.serial == |t.intents|
    ensures
      var (t', reply) := StripeCharge(t, order, cents, luck.verdict);
      && Numbered(t') && t'.rows == t.rows
      && CreateIntent(Part(t, order), cents, luck) == (Part(t', order), reply)
      && (other != order ==> Part(t', other) == Part(t, other))
  {
    KeysNeverMeet(order, other);
    KeysNeverMeet(order, order);
    KeysNeverMeet(other, order);
    var one := For(order, Intent(|t.intents|, cents, luck.verdict == Approve));
    SelectAppend(t.intents, one, order);
    SelectAppend(t.intents, one, other);
  }

  lemma RefundIsOwnStep(t: Tables, order: nat, due: int, intent: nat, luck: Luck, other: nat)
    requires Numbered(t) && luck.serial == |t.refunds|
    requires BooksOk(Part(t, order), due) && IsIntent(Part(t, order), intent)
    ensures
      var (t', reply) := StripeRefund(t, order, intent, luck.verdict);
      && Numbered(t') && t'.rows == t.rows
      && CreateRefund(Part(t, order), intent, luck) == (Part(t', order), reply)
      && (other != order ==> Part(t', other) == Part(t, other))
  {
    hide Select, BooksOk, IsIntent, FindIntent, ChargeKey, RefundKey, IntentById;
    IntentByIdIsOwn(t, order, due, intent);
    var found := IntentById(t, intent);
    assert found.Some? && FindIntent(Part(t, order).intents, intent) == found;
    KeysNeverMeet(order, other);
    KeysNeverMeet(order, order);
    KeysNeverMeet(other, order);
    var one := For(order, Refund(|t.refunds|, intent, found.value.amount, luck.verdict == Approve));
    SelectAppend(t.refunds, one, order);
    SelectAppend(t.refunds, one, other);
  }

  /** A row that another order's intent could block does not exist: uniqueness over all is uniqueness per order. */
  lemma FitsIffOwnFits(t: Tables, order: nat, due: nat -> int, intent: nat)
    requires TablesOk(t, due) && IsIntent(Part(t, order), intent)
    ensures RowFits(t, order, intent) <==> InsertFits(Part(t, order))
  {
    if RowFits(t, order, intent) {
      if Part(t, order).rows != [] {
        var i := SelectedFrom(t.rows, order, 0);
      }
    } else {
      var i :| 0 <= i < |t.rows| && !(t.rows[i].order != order && t.rows[i].item.intent != intent);
      SelectedInto(t.rows, i);
      var o := t.rows[i].order;
      assert BooksOk(Part(t, o), due(o)) && BooksOk(Part(t, order), due(order));
      IntentByIdIsOwn(t, order, due(order), intent);
      var j := SelectedFrom(t.intents, o, 0);
    }
  }

  lemma SaveIsOwnStep(t: Tables, order: nat, due: nat -> int, intent: nat, status: TxnStatus, luck: Luck, other: nat)
    requires TablesOk(t, due) && IsIntent(Part(t, order), intent) && luck.serial == |t.rows|
    ensures
      var (t', a') := SaveFor(t, order, intent, status, luck.net);
      && Numbered(t')
      && SaveRow(Part(t, order), intent, status, luck) == (Part(t', order), a')
      && (other != order ==> Part(t', other) == Part(t, other))
  {
    assert BooksOk(Part(t, order), due(order));
    hide TablesOk, BooksOk, Select, IsIntent, FindIntent, IntentById, InsertFits, RowFits;
    FitsIffOwnFits(t, order, due, intent);
    IntentByIdIsOwn(t, order, due(order), intent);
    var one := For(order, Txn(|t.rows| + 1, intent, IntentById(t, intent).value.amount, status));
    SelectAppend(t.rows, one, order);
    SelectAppend(t.rows, one, other);
  }

  lemma MarkIsOwnStep(t: Tables, order: nat, id: nat, other: nat)
    requires Numbered(t) && HasRow(Part(t, order), id)
    ensures
      var t' := t.(rows := MarkById(t.rows, id));
      && Numbered(t')
      && Part(t', order) == Part(t, order).(rows := MarkRefunded(Part(t, order).rows, id))
      && (other != order ==> Part(t', other) == Part(t, other))
  {
    SelectMarked(t.rows, id, order);
    SelectMarked(t.rows, id, other);
    if other != order {
      var i := SelectedFrom(t.rows, order, 0);
      forall k | 0 <= k < |Select(t.rows, other)| ensures Select(t.rows, other)[k].id != id {
        var j := SelectedFrom(t.rows, other, k);
      }
      MarkOfAbsent(Select(t.rows, other), id);
    }
  }

  /**
   * An attempt's step on the shared tables is the step of `Payment` on its own order's part, with
   * the same outcome, and leaves the part of every other order as it was.
   */
  lemma StepIsOwnStep(t: Tables, order: nat, a: Attempt, luck: Luck, due: nat -> int, other: nat)
    requires TablesOk(t, due) && AttemptOk(Part(t, order), a, due(order))
    ensures
      var (t', a') := TableStep(t, order, a, luck);
      && Numbered(t')
      && OwnStep(t, order, a, luck) == (Part(t', order), a')
      && (other != order ==> Part(t', other) == Part(t, other))
  {
    hide BooksOk, Numbered, SaveFor, SaveRow, StripeCharge, StripeRefund, CreateIntent, CreateRefund,
         Select, KeyAt;
    var own := luck.(serial := NextId(t, a));
    assert BooksOk(Part(t, order), due(order));
    match a
    case ChargeCall(amount) => ChargeCallIsOwn(t, order, a, luck, due, other);
    case RefundProbe(amount) => ChargeCallIsOwn(t, order, a, luck, due, other);
    case RefundCall(intent, row) => RefundCallIsOwn(t, order, a, luck, due, other);
    case ChargeSave(intent) => SaveIsOwnStep(t, order, due, intent, SUCCESS, own, other);
    case RefundSave(intent) => SaveIsOwnStep(t, order, due, intent, REFUNDED, own, other);
    case RefundUpdate(id) => MarkIsOwnStep(t, order, id, other);
    case _ =>
  }

  lemma ChargeRepliedAlike(t: Tables, order: nat, due: int, reply: Reply)
    requires Numbered(t) && BooksOk(Part(t, order), due)
    requires reply.Made? ==> IsIntent(Part(t, order), reply.id)
    ensures ChargeReplied(t, reply) == AfterCharge(Part(t, order), reply)
    ensures ProbeReplied(t, reply) == AfterProbe(Part(t, order), reply)
  {
    if reply.Made? {
      IntentByIdIsOwn(t, order, due, reply.id);
    }
  }

  lemma ChargeCallIsOwn(t: Tables, order: nat, a: Attempt, luck: Luck, due: nat -> int, other: nat)
    requires Numbered(t) && BooksOk(Part(t, order), due(order)) && AttemptOk(Part(t, order), a, due(order))
    requires a.ChargeCall? || a.RefundProbe?
    ensures
      var (t', a') := TableStep(t, order, a, luck);
      && Numbered(t')
      && OwnStep(t, order, a, luck) == (Part(t', order), a')
      && (other != order ==> Part(t', other) == Part(t, other))
  {
    hide BooksOk, Part, CreateIntent, StripeCharge, Numbered, AfterCharge, AfterProbe, ChargeReplied,
         ProbeReplied, IntentSucceeded, Grows, Paid;
    var own := luck.(serial := NextId(t, a));
    var cents := Cents(due(order));
    ChargeIsOwnStep(t, order, cents, own, other);
    IntentCallOk(Part(t, order), due(order), own);
    var charged := StripeCharge(t, order, cents, luck.verdict);
    ChargeRepliedAlike(charged.0, order, due(order), charged.1);
  }

  lemma RefundRepliedAlike(t: Tables, order: nat, due: int, reply: Reply, intent: nat, row: Option<nat>)
    requires Numbered(t) && BooksOk(Part(t, order), due)
    requires reply.Made? ==> IsRefund(Part(t, order), reply.id)
    ensures RefundReplied(t, reply, intent, row) == AfterRefund(Part(t, order), reply, intent, row)
  {
    if reply.Made? {
      ObjectsOfOne(Part(t, order), reply.id);
      var i := SelectedFrom(t.refunds, order, 0);
    }
  }

  /** `id` is the refund that the refund key replays. */
  predicate IsRefund(b: Books, id: nat) { b.refundKey.Some? && b.refundKey.value.reply == Made(id) }

  lemma RefundCallIsOwn(t: Tables, order: nat, a: Attempt, luck: Luck, due: nat -> int, other: nat)
    requires TablesOk(t, due) && AttemptOk(Part(t, order), a, due(order))
    requires a.RefundCall?
    ensures
      var (t', a') := TableStep(t, order, a, luck);
      && Numbered(t')
      && OwnStep(t, order, a, luck) == (Part(t', order), a')
      && (other != order ==> Part(t', other) == Part(t, other))
  {
    var own := luck.(serial := NextId(t, a));
    assert BooksOk(Part(t, order), due(order));
    hide BooksOk, Part, CreateRefund, StripeRefund, Numbered, TablesOk, AfterRefund, RefundReplied,
         RefundSucceeded, Grows;
    RefundIsOwnStep(t, order, due(order), a.intent, own, other);
    RefundCallOk(Part(t, order), due(order), a.intent, own);
    var (t1, reply) := StripeRefund(t, order, a.intent, luck.verdict);
    RefundRepliedAlike(t1, order, due(order), reply, a.intent, a.row);
  }

  // ----- all attempts for all orders -----

  datatype Bank = Bank(tables: Tables, attempts: seq<For<Attempt>>)

  datatype BankEvent = Begin(order: nat, attempt: Attempt) | Move(k: nat, luck: Luck)

  const EMPTY_BANK := Bank(Tables([], [], [], map[]), [])

  function BankStep(b: Bank, e: BankEvent, due: nat -> int): Bank {
    match e
    case Begin(order, a) =>
      if MayStart(a, due(order)) then b.(attempts := b.attempts + [For(order, a)]) else b
    case Move(k, luck) =>
      if k < |b.attempts| then
        var (t', a') := TableStep(b.tables, b.attempts[k].order, b.attempts[k].item, luck);
        Bank(t', b.attempts[k := b.attempts[k].(item := a')])
      else b
  }

  function BankRun(b: Bank, events: seq<BankEvent>, due: nat -> int): Bank
    decreases |events|
  {
    if events == [] then b else BankRun(BankStep(b, events[0], due), events[1..], due)
  }

  ghost predicate BankOk(b: Bank, due: nat -> int) {
    && TablesOk(b.tables, due)
    && forall k :: 0 <= k < |b.attempts| ==>
         AttemptOk(Part(b.tables, b.attempts[k].order), b.attempts[k].item, due(b.attempts[k].order))
  }

  /** A step keeps the part of every order consistent and takes back nothing on record in any of them. */
  lemma StepKeepsPart(t: Tables, order: nat, a: Attempt, luck: Luck, due: nat -> int, o: nat)
    requires TablesOk(t, due) && AttemptOk(Part(t, order), a, due(order))
    ensures
      var (t', a') := TableStep(t, order, a, luck);
      && BooksOk(Part(t', o), due(o)) && Grows(Part(t, o), Part(t', o))
      && AttemptOk(Part(t', order), a', due(order))
  {
    assert BooksOk(Part(t, order), due(order)) && BooksOk(Part(t, o), due(o));
    hide BooksOk, AttemptOk, Part, TableStep, AttemptStep, NextId;
    StepIsOwnStep(t, order, a, luck, due, o);
    StepKeepsBooks(Part(t, order), a, luck.(serial := NextId(t, a)), due(order));
  }

  lemma MoveKeepsBank(b: Bank, k: nat, luck: Luck, due: nat -> int)
    requires BankOk(b, due) && k < |b.attempts|
    ensures BankOk(BankStep(b, Move(k, luck), due), due)
  {
    hide BooksOk, AttemptOk, Part, TableStep, Grows, Numbered, OwnStep;
    var t, order, a := b.tables, b.attempts[k].order, b.attempts[k].item;
    var b' := BankStep(b, Move(k, luck), due);
    StepIsOwnStep(t, order, a, luck, due, order);
    forall o: nat ensures BooksOk(Part(b'.tables, o), due(o)) && Grows(Part(t, o), Part(b'.tables, o)) {
      StepKeepsPart(t, order, a, luck, due, o);
    }
    forall i | 0 <= i < |b'.attempts|
      ensures AttemptOk(Part(b'.tables, b'.attempts[i].order), b'.attempts[i].item, due(b'.attempts[i].order))
    {
      var one := b.attempts[i];
      if i == k {
        StepKeepsPart(t, order, a, luck, due, order);
      } else {
        AttemptOkStays(Part(t, one.order), Part(b'.tables, one.order), one.item, due(one.order));
      }
    }
  }

  lemma BankStepOk(b: Bank, e: BankEvent, due: nat -> int)
    requires BankOk(b, due)
    ensures BankOk(BankStep(b, e, due), due)
  {
    hide BooksOk, Part, TableStep, Numbered;
    if e.Move? && e.k < |b.attempts| {
      MoveKeepsBank(b, e.k, e.luck, due);
    }
  }

  // ----- a run of the whole bank is, for each order, a run of its own account -----

  /** Where entry `k` stands among those of its order. */
  function Rank<T>(all: seq<For<T>>, k: nat): nat
    requires k < |all|
  {
    |Select(all[..k], all[k].order)|
  }

  lemma {:induction false} SelectUpdate<T>(all: seq<For<T>>, k: nat, item: T, order: nat)
    requires k < |all|
    ensures
      var was := Select(all, order);
      var now := Select(all[k := all[k].(item := item)], order);
      if all[k].order == order
      then Rank(all, k) < |was| && was[Rank(all, k)] == all[k].item && now == was[Rank(all, k) := item]
      else now == was
  {
    var last := |all| - 1;
    var all' := all[k := all[k].(item := item)];
    if k == last {
      assert all'[..last] == all[..last];
    } else {
      assert all'[..last] == all[..last][k := all[..last][k].(item := item)];
      assert all[..last][..k] == all[..k];
      SelectUpdate(all[..last], k, item, order);
    }
  }

  function AccountOf(b: Bank, order: nat): Account {
    Account(Part(b.tables, order), Select(b.attempts, order))
  }

  /** What a bank event is to one order: its own event, or nothing. */
  function OwnEvent(b: Bank, e: BankEvent, order: nat): Option<Event> {
    match e
    case Begin(o, a) => if o == order then Some(Start(a)) else None
    case Move(k, luck) =>
      if k < |b.attempts| && b.attempts[k].order == order then
        Some(Advance(Rank(b.attempts, k), luck.(serial := NextId(b.tables, b.attempts[k].item))))
      else None
  }

  lemma MoveIsOwnEvent(b: Bank, k: nat, luck: Luck, due: nat -> int, order: nat)
    requires BankOk(b, due) && k < |b.attempts|
    ensures
      var own := OwnEvent(b, Move(k, luck), order);
      AccountOf(BankStep(b, Move(k, luck), due), order) ==
      if own.Some? then AccountStep(AccountOf(b, order), own.value, due(order)) else AccountOf(b, order)
  {
    hide Part, TableStep, AttemptStep, AttemptOk, Numbered, BooksOk, Select, Rank, NextId;
    var one := b.attempts[k];
    StepIsOwnStep(b.tables, one.order, one.item, luck, due, order);
    SelectUpdate(b.attempts, k, TableStep(b.tables, one.order, one.item, luck).1, order);
  }

  lemma EventIsOwnEvent(b: Bank, e: BankEvent, due: nat -> int, order: nat)
    requires BankOk(b, due)
    ensures BankOk(BankStep(b, e, due), due)
    ensures
      var own := OwnEvent(b, e, order);
      AccountOf(BankStep(b, e, due), order) ==
      if own.Some? then AccountStep(AccountOf(b, order), own.value, due(order)) else AccountOf(b, order)
  {
    hide Part, TableStep, AttemptStep, AttemptOk, BooksOk, Select, Rank, NextId;
    BankStepOk(b, e, due);
    match e
    case Begin(o, a) => SelectAppend(b.attempts, For(o, a), order);
    case Move(k, luck) =>
      if k < |b.attempts| {
        MoveIsOwnEvent(b, k, luck, due, order);
      }
  }

  function OwnEvents(b: Bank, events: seq<BankEvent>, due: nat -> int, order: nat): seq<Event>
    decreases |events|
  {
    if events == [] then []
    else
      var own := OwnEvent(b, events[0], order);
      (if own.Some? then [own.value] else []) + OwnEvents(BankStep(b, events[0], due), events[1..], due, order)
  }

  /**
   * Whatever the attempts for all other orders do in between, one order's books and attempts go
   * through a run of `Payment`. So everything proved there about one order holds in the shared tables.
   */
  lemma {:induction false} BankRunIsOwnRun(b: Bank, events: seq<BankEvent>, due: nat -> int, order: nat)
    requires BankOk(b, due)
    ensures BankOk(BankRun(b, events, due), due)
    ensures AccountOf(BankRun(b, events, due), order) ==
            AccountRun(AccountOf(b, order), OwnEvents(b, events, due, order), due(order))
    decreases |events|
  {
    hide BankOk, BankStep, AccountOf, AccountStep, OwnEvent;
    if events != [] {
      var e := events[0];
      EventIsOwnEvent(b, e, due, order);
      BankRunIsOwnRun(BankStep(b, e, due), events[1..], due, order);
      var own := OwnEvent(b, e, order);
      var rest := OwnEvents(BankStep(b, e, due), events[1..], due, order);
      if own.Some? {
        assert ([own.value] + rest)[1..] == rest;
      } else {
        assert [] + rest == rest;
      }
    }
  }

  lemma OwnHistory(events: seq<BankEvent>, due: nat -> int, order: nat) returns (own: seq<Event>)
    ensures BankOk(BankRun(EMPTY_BANK, events, due), due)
    ensures AccountOf(BankRun(EMPTY_BANK, events, due), order) ==
            AccountRun(Account(EMPTY_BOOKS, []), own, due(order))
  {
    forall o: nat ensures BooksOk(Part(EMPTY_BANK.tables, o), due(o)) {
      assert Part(EMPTY_BANK.tables, o) == EMPTY_BOOKS;
    }
    BankRunIsOwnRun(EMPTY_BANK, events, due, order);
    own := OwnEvents(EMPTY_BANK, events, due, order);
  }

  /**
   * Over every interleaving of attempts for any number of orders, each order has at most one row and
   * one intent, is captured its own bill once or nothing, and gets back once what was captured or
   * nothing. All its charges that return give the id of its row.
   */
  lemma EveryOrderIsChargedOnce(events: seq<BankEvent>, due: nat -> int, order: nat, k: nat)
    ensures
      var b := BankRun(EMPTY_BANK, events, due);
      var part := Part(b.tables, order);
      && |part.rows| <= 1 && |part.intents| <= 1 && |part.refunds| <= 1
      && (Captured(part.intents) == 0 || Captured(part.intents) == Cents(due(order)))
      && (Returned(part.refunds) == 0 || Returned(part.refunds) == Captured(part.intents))
      && (k < |b.attempts| && b.attempts[k].order == order && b.attempts[k].item.ChargeDone? ==>
            Captured(part.intents) == Cents(due(order)) && HasRow(part, b.attempts[k].item.id))
  {
    hide Part;
    var b := BankRun(EMPTY_BANK, events, due);
    var own := OwnHistory(events, due, order);
    ChargeExactlyOnce(own, due(order), 0, 0);
    RefundAtMostOnce(own, due(order));
    if k < |b.attempts| && b.attempts[k].order == order {
      SelectUpdate(b.attempts, k, b.attempts[k].item, order);
      ChargeExactlyOnce(own, due(order), Rank(b.attempts, k), 0);
    }
  }

  /** Once a refund for an order has returned, nothing done later for any order makes it pay again. */
  lemma RefundIsFinalAmongAll(before: seq<BankEvent>, later: seq<BankEvent>, due: nat -> int, order: nat, k: nat)
    requires
      var b := BankRun(EMPTY_BANK, before, due);
      k < |b.attempts| && b.attempts[k] == For(order, RefundDone)
    ensures
      var part := Part(BankRun(BankRun(EMPTY_BANK, before, due), later, due).tables, order);
      && Kept(part) == 0
      && (forall r :: 0 <= r < |part.rows| ==> part.rows[r].status == REFUNDED)
  {
    hide Part;
    var b := BankRun(EMPTY_BANK, before, due);
    var own := OwnHistory(before, due, order);
    BankRunIsOwnRun(b, later, due, order);
    var rest := OwnEvents(b, later, due, order);
    SelectUpdate(b.attempts, k, RefundDone, order);
    AccountRunConcat(Account(EMPTY_BOOKS, []), own, rest, due(order));
    RefundReturnedIsFinal(own, rest, due(order), Rank(b.attempts, k));
  }

  /** Rows of different orders have different ids. */
  lemma RowIdsDiffer(t: Tables, a: nat, b: nat)
    requires Numbered(t) && a != b
    ensures
      var one, two := Part(t, a).rows, Part(t, b).rows;
      one != [] && two != [] ==> one[0].id != two[0].id
  {
    if Part(t, a).rows != [] && Part(t, b).rows != [] {
      var k := SelectedFrom(t.rows, a, 0);
      var l := SelectedFrom(t.rows, b, 0);
    }
  }

  /** No two orders are ever given the same payment id. */
  lemma PaymentIdsDiffer(events: seq<BankEvent>, due: nat -> int, a: nat, b: nat)
    requires a != b
    ensures
      var t := BankRun(EMPTY_BANK, events, due).tables;
      var one, two := Part(t, a).rows, Part(t, b).rows;
      one != [] && two != [] ==> one[0].id != two[0].id
  {
    var own := OwnHistory(events, due, a);
    RowIdsDiffer(BankRun(EMPTY_BANK, events, due).tables, a, b);
  }
}
