/**
 * The shop with everything shared that the source shares: besides the inventory table also one
 * transaction table, one Stripe account and one set of idempotency keys. Seen order by order it
 * takes exactly the steps of `Platform`, so what is proved there holds here.
 */
module SharedShop {
  import opened Common
  import opened Inventory
  import opened Ledger
  import opened Orders
  import opened Saga
  import opened Platform
  import opened Guarantees
  import Pay = Payment
  import Tables = PaymentTables

  /** What is stored for one order outside the payment service. */
  datatype Desk = Desk(row: OrderRow, place: PlaceRun, cancel: CancelRun, shipments: nat, refused: bool)

  datatype Shop = Shop(ledger: Ledger, desks: seq<Desk>, bank: Tables.Bank)

  const EMPTY_SHOP := Shop(Ledger(map[], map[], []), [], Tables.EMPTY_BANK)

  /** The id of order `o`, which its payment rows and idempotency keys carry. */
  function Id(o: nat): nat { o + 1 }

  function CaseOf(d: Desk, account: Pay.Account): Case {
    Case(d.row, d.place, d.cancel, account, d.shipments, d.refused)
  }

  function DeskOf(c: Case): Desk { Desk(c.row, c.place, c.cancel, c.shipments, c.refused) }

  /** The shop seen order by order, each with its own part of the shared tables. */
  function Seen(s: Shop): World {
    World(s.ledger, seq(|s.desks|, o requires 0 <= o < |s.desks| =>
      CaseOf(s.desks[o], Tables.AccountOf(s.bank, Id(o)))))
  }

  /** The bill of each order id. */
  function Due(desks: seq<Desk>): nat -> int {
    id => if 1 <= id <= |desks| then desks[id - 1].row.total else 0
  }

  datatype SharedAction =
    | Business(action: Action)                  // anything that is not a step of a payment attempt
    | Begin(o: nat, attempt: Pay.Attempt)
    | Move(k: nat, luck: Pay.Luck)              // attempt `k` of all that were ever begun

  predicate IsPayment(a: Action) { a.StartAttempt? || a.AdvanceAttempt? }

  function SharedStep(s: Shop, a: SharedAction): Shop {
    match a
    case Business(action) =>
      if IsPayment(action) then s
      else
        var w := Step(Seen(s), action);
        Shop(w.ledger, seq(|w.cases|, o requires 0 <= o < |w.cases| => DeskOf(w.cases[o])), s.bank)
    case Begin(o, attempt) =>
      if Known(Seen(s), o) && MayStart(Seen(s).cases[o], attempt)
      then s.(bank := Tables.BankStep(s.bank, Tables.Begin(Id(o), attempt), Due(s.desks)))
      else s
    case Move(k, luck) => s.(bank := Tables.BankStep(s.bank, Tables.Move(k, luck), Due(s.desks)))
  }

  /** The step as `Platform` has it: the attempt by its number within its order, the next id spelled out. */
  function SeenAction(s: Shop, a: SharedAction): Action {
    match a
    case Business(action) => if IsPayment(action) then AdvanceAttempt(|s.desks|, 0, Pay.SMOOTH) else action
    case Begin(o, attempt) => StartAttempt(o, attempt)
    case Move(k, luck) =>
      if k < |s.bank.attempts| && s.bank.attempts[k].order > 0 then
        var one := s.bank.attempts[k];
        AdvanceAttempt(one.order - 1, Tables.Rank(s.bank.attempts, k),
                       luck.(serial := Tables.NextId(s.bank.tables, one.item)))
      else AdvanceAttempt(|s.desks|, 0, luck)
  }

  const NO_ACCOUNT := Pay.Account(Pay.EMPTY_BOOKS, [])

  /** The tables are consistent, and nothing in them is for an order that does not exist. */
  ghost predicate ShopOk(s: Shop) {
    && |s.desks| == |s.ledger.claims|
    && Tables.BankOk(s.bank, Due(s.desks))
    && (forall k :: 0 <= k < |s.bank.attempts| ==> 1 <= s.bank.attempts[k].order <= |s.desks|)
    && (forall id: nat :: id == 0 || id > |s.desks| ==> Tables.AccountOf(s.bank, id) == NO_ACCOUNT)
  }

  // ----- payment steps -----

  lemma BankEventSeen(s: Shop, e: Tables.BankEvent, o: nat)
    requires ShopOk(s) && o < |s.desks|
    ensures
      var s', own := s.(bank := Tables.BankStep(s.bank, e, Due(s.desks))), Tables.OwnEvent(s.bank, e, Id(o));
      && |Seen(s').cases| == |s.desks|
      && Seen(s').cases[o] ==
           if own.Some? then
             Seen(s).cases[o].(account := Pay.AccountStep(Seen(s).cases[o].account, own.value, s.desks[o].row.total))
           else Seen(s).cases[o]
  {
    hide Tables.BankOk, Tables.BankStep, Tables.AccountOf, Pay.AccountStep, Tables.OwnEvent;
    Tables.EventIsOwnEvent(s.bank, e, Due(s.desks), Id(o));
  }

  lemma BankEventKeepsOrders(b: Tables.Bank, e: Tables.BankEvent, due: nat -> int)
    ensures
      var b' := Tables.BankStep(b, e, due);
      forall k :: 0 <= k < |b'.attempts| ==>
        if k < |b.attempts| then b'.attempts[k].order == b.attempts[k].order
        else e.Begin? && b'.attempts[k].order == e.order
  {
    hide Tables.TableStep;
  }

  /** What the event is not about stays empty. */
  lemma BankEventKeepsEmpty(b: Tables.Bank, e: Tables.BankEvent, due: nat -> int, id: nat)
    requires Tables.BankOk(b, due) && Tables.OwnEvent(b, e, id).None?
    ensures Tables.AccountOf(Tables.BankStep(b, e, due), id) == Tables.AccountOf(b, id)
    ensures Tables.BankOk(Tables.BankStep(b, e, due), due)
  {
    hide *;
    Tables.EventIsOwnEvent(b, e, due, id);
  }

  lemma BankEventKeepsShop(s: Shop, e: Tables.BankEvent)
    requires ShopOk(s) && (e.Begin? ==> 1 <= e.order <= |s.desks|)
    ensures ShopOk(s.(bank := Tables.BankStep(s.bank, e, Due(s.desks))))
  {
    hide Tables.BankOk, Tables.AccountOf, Tables.BankStep, Tables.Rank, Tables.NextId, Due;
    var bank := Tables.BankStep(s.bank, e, Due(s.desks));
    BankEventKeepsOrders(s.bank, e, Due(s.desks));
    BankEventKeepsEmpty(s.bank, e, Due(s.desks), 0);
    forall id: nat | id == 0 || id > |s.desks| ensures Tables.AccountOf(bank, id) == NO_ACCOUNT {
      BankEventKeepsEmpty(s.bank, e, Due(s.desks), id);
    }
  }

  /** A bank event for order `i` is that order's step, and nobody else's. */
  lemma PaymentSeen(s: Shop, e: Tables.BankEvent, i: nat, own: Pay.Event)
    requires ShopOk(s) && i < |s.desks|
    requires forall o: nat :: o < |s.desks| ==> Tables.OwnEvent(s.bank, e, Id(o)) == if o == i then Some(own) else None
    ensures Seen(s.(bank := Tables.BankStep(s.bank, e, Due(s.desks)))) == PayOne(Seen(s), i, own)
  {
    SeenSize(s);
    hide Seen, Tables.BankStep, Tables.OwnEvent, Pay.AccountStep, ShopOk, Due;
    var s' := s.(bank := Tables.BankStep(s.bank, e, Due(s.desks)));
    SeenSize(s');
    forall o: nat | o < |s.desks| ensures Seen(s').cases[o] == PayOne(Seen(s), i, own).cases[o] {
      BankEventSeen(s, e, o);
    }
    assert Seen(s').cases == PayOne(Seen(s), i, own).cases;
  }

  lemma SeenSize(s: Shop)
    ensures Seen(s).ledger == s.ledger && |Seen(s).cases| == |s.desks|
    ensures forall o :: 0 <= o < |s.desks| ==> Seen(s).cases[o].row == s.desks[o].row
  {
  }

  /** An event is for one order only. */
  lemma OwnEventIsForOne(b: Tables.Bank, e: Tables.BankEvent, i: nat, o: nat)
    requires Tables.OwnEvent(b, e, Id(i)).Some?
    ensures o != i ==> Tables.OwnEvent(b, e, Id(o)).None?
  {
    hide Tables.Rank, Tables.NextId;
  }

  /** The event of an attempt for order `i` is a step of that order's account. */
  lemma OwnEventSeen(s: Shop, e: Tables.BankEvent, i: nat, own: Pay.Event)
    requires ShopOk(s) && i < |s.desks| && Tables.OwnEvent(s.bank, e, Id(i)) == Some(own)
    requires e.Begin? ==> e.order == Id(i)
    ensures ShopOk(s.(bank := Tables.BankStep(s.bank, e, Due(s.desks))))
    ensures Seen(s.(bank := Tables.BankStep(s.bank, e, Due(s.desks)))) == PayOne(Seen(s), i, own)
  {
    hide ShopOk, Seen, Tables.BankStep, PayOne, Due, Tables.OwnEvent;
    BankEventKeepsShop(s, e);
    forall o: nat | o < |s.desks| ensures Tables.OwnEvent(s.bank, e, Id(o)) == if o == i then Some(own) else None {
      OwnEventIsForOne(s.bank, e, i, o);
    }
    PaymentSeen(s, e, i, own);
  }

  /** Payment steps of `Platform`. */
  lemma PaymentSteps(w: World, o: nat, attempt: Pay.Attempt, k: nat, luck: Pay.Luck)
    ensures Step(w, StartAttempt(o, attempt)) ==
              if Known(w, o) && MayStart(w.cases[o], attempt) then PayOne(w, o, Pay.Start(attempt)) else w
    ensures Step(w, AdvanceAttempt(o, k, luck)) ==
              if Known(w, o) then PayOne(w, o, Pay.Advance(k, luck)) else w
  {
    hide PayOne, MayStart;
  }

  lemma BeginSeen(s: Shop, o: nat, attempt: Pay.Attempt)
    requires ShopOk(s)
    ensures ShopOk(SharedStep(s, Begin(o, attempt)))
    ensures Seen(SharedStep(s, Begin(o, attempt))) == Step(Seen(s), StartAttempt(o, attempt))
  {
    SeenIsKnown(s);
    hide ShopOk, Step, SharedStep, Seen, Tables.BankStep, Tables.OwnEvent, PayOne, Due, MayStart;
    SharedPaymentSteps(s, o, attempt, 0, Pay.SMOOTH);
    BeginIsStart(s, o, attempt);
    PaymentSteps(Seen(s), o, attempt, 0, Pay.SMOOTH);
    if Known(Seen(s), o) {
      OwnEventSeen(s, Tables.Begin(Id(o), attempt), o, Pay.Start(attempt));
    }
  }

  lemma MoveSeen(s: Shop, k: nat, luck: Pay.Luck)
    requires ShopOk(s)
    ensures ShopOk(SharedStep(s, Move(k, luck)))
    ensures Seen(SharedStep(s, Move(k, luck))) == Step(Seen(s), SeenAction(s, Move(k, luck)))
  {
    hide *;
    AttemptsHaveOrders(s);
    SeenIsKnown(s);
    SharedPaymentSteps(s, 0, Pay.RefundDone, k, luck);
    var a := SeenAction(s, Move(k, luck));
    if k < |s.bank.attempts| {
      MoveIsAdvance(s, k, luck);
      PaymentSteps(Seen(s), a.o, Pay.RefundDone, a.k, a.luck);
      OwnEventSeen(s, Tables.Move(k, luck), a.o, Pay.Advance(a.k, a.luck));
    } else {
      LateMove(s, k, luck);
      PaymentSteps(Seen(s), |s.desks|, Pay.RefundDone, 0, luck);
    }
  }

  /** Payment steps of the shared shop. */
  lemma SharedPaymentSteps(s: Shop, o: nat, attempt: Pay.Attempt, k: nat, luck: Pay.Luck)
    ensures SharedStep(s, Begin(o, attempt)) ==
              if Known(Seen(s), o) && MayStart(Seen(s).cases[o], attempt)
              then s.(bank := Tables.BankStep(s.bank, Tables.Begin(Id(o), attempt), Due(s.desks)))
              else s
    ensures SharedStep(s, Move(k, luck)) ==
              s.(bank := Tables.BankStep(s.bank, Tables.Move(k, luck), Due(s.desks)))
  {
    hide MayStart, Due, Tables.BankStep, Step;
  }

  lemma BeginIsStart(s: Shop, o: nat, attempt: Pay.Attempt)
    ensures Tables.OwnEvent(s.bank, Tables.Begin(Id(o), attempt), Id(o)) == Some(Pay.Start(attempt))
  {
  }

  lemma AttemptsHaveOrders(s: Shop)
    requires ShopOk(s)
    ensures forall k :: 0 <= k < |s.bank.attempts| ==> 1 <= s.bank.attempts[k].order <= |s.desks|
  {
  }

  lemma LateMove(s: Shop, k: nat, luck: Pay.Luck)
    requires k >= |s.bank.attempts|
    ensures Tables.BankStep(s.bank, Tables.Move(k, luck), Due(s.desks)) == s.bank
    ensures SeenAction(s, Move(k, luck)) == AdvanceAttempt(|s.desks|, 0, luck)
  {
  }

  lemma MoveIsAdvance(s: Shop, k: nat, luck: Pay.Luck)
    requires k < |s.bank.attempts| && s.bank.attempts[k].order > 0
    ensures
      var a, o := SeenAction(s, Move(k, luck)), s.bank.attempts[k].order - 1;
      && a.AdvanceAttempt? && a.o == o
      && Tables.OwnEvent(s.bank, Tables.Move(k, luck), Id(o)) == Some(Pay.Advance(a.k, a.luck))
  {
    hide Tables.Rank, Tables.NextId;
  }

  lemma SeenIsKnown(s: Shop)
    requires ShopOk(s)
    ensures forall o: nat :: Known(Seen(s), o) <==> o < |s.desks|
  {
  }

  // ----- all other steps -----

  /** They leave every account and total alone, and a new order's account is empty. */
  lemma BusinessKeepsAccounts(w: World, a: Action)
    requires !IsPayment(a) && |w.cases| == |w.ledger.claims|
    ensures
      var w' := Step(w, a);
      && |w.cases| <= |w'.cases| == |w'.ledger.claims|
      && (forall o :: 0 <= o < |w.cases| ==>
            w'.cases[o].account == w.cases[o].account && w'.cases[o].row.total == w.cases[o].row.total)
      && (forall o :: |w.cases| <= o < |w'.cases| ==> w'.cases[o].account == NO_ACCOUNT)
  {
    if (a.PlaceNext? || a.CancelNext?) && Known(w, a.o) {
      var c := w.cases[a.o];
      if a.PlaceNext? {
        PlaceStepKeeps(c, a.net, a.via, Granted(w.ledger, PlaceCall(c), a.net, w.ledger.claims[a.o].items));
      } else {
        CancelStepKeeps(c, a.net, a.via, Granted(w.ledger, CancelCall(c), a.net, c.cancel.listing), a.listing);
      }
    }
  }

  /** Opening orders does not disturb tables that have nothing for them yet. */
  lemma BankOkWithMore(s: Shop, desks: seq<Desk>)
    requires ShopOk(s) && |s.desks| <= |desks|
    requires forall o :: 0 <= o < |s.desks| ==> desks[o].row.total == s.desks[o].row.total
    ensures Tables.BankOk(s.bank, Due(desks))
  {
    var due, due' := Due(s.desks), Due(desks);
    forall id: nat ensures Pay.BooksOk(Tables.Part(s.bank.tables, id), due'(id)) {
      assert Pay.BooksOk(Tables.Part(s.bank.tables, id), due(id));
      if id == 0 || id > |s.desks| {
        assert Tables.AccountOf(s.bank, id).books == Pay.EMPTY_BOOKS;
      }
    }
    forall k | 0 <= k < |s.bank.attempts|
      ensures due'(s.bank.attempts[k].order) == due(s.bank.attempts[k].order)
    {
    }
  }

  lemma BusinessSeen(s: Shop, a: Action)
    requires ShopOk(s) && !IsPayment(a)
    ensures ShopOk(SharedStep(s, Business(a)))
    ensures Seen(SharedStep(s, Business(a))) == Step(Seen(s), a)
  {
    var w' := Step(Seen(s), a);
    BusinessKeepsAccounts(Seen(s), a);
    hide Step;
    DesksSeen(s, w');
    BankOkWithMore(s, SharedStep(s, Business(a)).desks);
  }

  /** A world with the same accounts, seen at its desks, is that world. */
  lemma DesksSeen(s: Shop, w: World)
    requires ShopOk(s) && |s.desks| <= |w.cases|
    requires forall o :: 0 <= o < |s.desks| ==> w.cases[o].account == Seen(s).cases[o].account
    requires forall o :: |s.desks| <= o < |w.cases| ==> w.cases[o].account == NO_ACCOUNT
    ensures Seen(Shop(w.ledger, seq(|w.cases|, o requires 0 <= o < |w.cases| => DeskOf(w.cases[o])), s.bank)) == w
  {
    hide Tables.AccountOf, Tables.BankOk;
    var s' := Shop(w.ledger, seq(|w.cases|, o requires 0 <= o < |w.cases| => DeskOf(w.cases[o])), s.bank);
    forall o | 0 <= o < |w.cases| ensures Seen(s').cases[o] == w.cases[o] {
    }
    assert Seen(s').cases == w.cases;
  }

  // ----- steps and runs -----

  /** Every step of the shared shop is, seen order by order, a step of `Platform`. */
  lemma SharedStepIsStep(s: Shop, a: SharedAction)
    requires ShopOk(s)
    ensures ShopOk(SharedStep(s, a)) && Seen(SharedStep(s, a)) == Step(Seen(s), SeenAction(s, a))
  {
    hide ShopOk, Seen, Step, Tables.BankStep;
    match a
    case Business(action) => if IsPayment(action) { NothingSeen(s, action); } else { BusinessSeen(s, action); }
    case Begin(o, attempt) => BeginSeen(s, o, attempt);
    case Move(k, luck) => MoveSeen(s, k, luck);
  }

  /** Payment attempts move through the bank only. */
  lemma NothingSeen(s: Shop, a: Action)
    requires ShopOk(s) && IsPayment(a)
    ensures SharedStep(s, Business(a)) == s
    ensures Step(Seen(s), SeenAction(s, Business(a))) == Seen(s)
  {
    SeenIsKnown(s);
  }

  function SharedExec(s: Shop, actions: seq<SharedAction>): Shop
    decreases |actions|
  {
    if actions == [] then s else SharedExec(SharedStep(s, actions[0]), actions[1..])
  }

  function SeenActions(s: Shop, actions: seq<SharedAction>): seq<Action>
    decreases |actions|
  {
    if actions == [] then []
    else [SeenAction(s, actions[0])] + SeenActions(SharedStep(s, actions[0]), actions[1..])
  }

  lemma {:induction false} SharedRunIsRun(s: Shop, actions: seq<SharedAction>)
    requires ShopOk(s)
    ensures ShopOk(SharedExec(s, actions))
    ensures Seen(SharedExec(s, actions)) == Exec(Seen(s), SeenActions(s, actions))
    decreases |actions|
  {
    hide ShopOk, Seen, SharedStep, Step, SeenAction;
    if actions != [] {
      SharedStepIsStep(s, actions[0]);
      SharedRunIsRun(SharedStep(s, actions[0]), actions[1..]);
      var rest := SeenActions(SharedStep(s, actions[0]), actions[1..]);
      assert ([SeenAction(s, actions[0])] + rest)[1..] == rest;
    }
  }

  lemma EmptyShopSeen()
    ensures ShopOk(EMPTY_SHOP) && Seen(EMPTY_SHOP) == EMPTY_WORLD
  {
    forall id: nat
      ensures Pay.BooksOk(Tables.Part(EMPTY_SHOP.bank.tables, id), 0)
      ensures Tables.AccountOf(EMPTY_SHOP.bank, id) == NO_ACCOUNT
    {
      assert Tables.Part(EMPTY_SHOP.bank.tables, id) == Pay.EMPTY_BOOKS;
    }
  }

  /**
   * Whatever orders, workflows, payment attempts and adjustments interleave over the shared tables:
   * seen order by order the shop is in a state that `Platform` reaches, so every guarantee holds of it.
   */
  lemma SharedShopIsReached(actions: seq<SharedAction>)
    requires Disciplined(EMPTY_WORLD, SeenActions(EMPTY_SHOP, actions))
    ensures ShopOk(SharedExec(EMPTY_SHOP, actions))
    ensures Reached(Seen(SharedExec(EMPTY_SHOP, actions)))
  {
    EmptyShopSeen();
    SharedRunIsRun(EMPTY_SHOP, actions);
  }

  /** No two orders ever save the same payment id, so the unique column of the order table refuses none. */
  lemma SavedPaymentIdsDiffer(actions: seq<SharedAction>, a: nat, b: nat)
    requires Disciplined(EMPTY_WORLD, SeenActions(EMPTY_SHOP, actions)) && a != b
    ensures
      var desks := SharedExec(EMPTY_SHOP, actions).desks;
      a < |desks| && b < |desks| && desks[a].row.paymentId.Some? ==>
        desks[a].row.paymentId != desks[b].row.paymentId
  {
    hide Disciplined, SharedExec, SeenActions, ShopOk, Inv, Reached, Seen;
    SharedShopIsReached(actions);
    var s := SharedExec(EMPTY_SHOP, actions);
    ReachedInv(Seen(s));
    SavedIdsDiffer(s, a, b);
  }

  lemma SavedIdsDiffer(s: Shop, a: nat, b: nat)
    requires ShopOk(s) && Inv(Seen(s)) && a != b
    ensures a < |s.desks| && b < |s.desks| && s.desks[a].row.paymentId.Some? ==>
              s.desks[a].row.paymentId != s.desks[b].row.paymentId
  {
    hide Inv, ShopOk, Seen, Tables.Numbered, Tables.Part;
    TablesNumbered(s);
    if a < |s.desks| && b < |s.desks| && s.desks[a].row.paymentId.Some? && s.desks[b].row.paymentId.Some? {
      SavedIsRow(s, a);
      SavedIsRow(s, b);
      Tables.RowIdsDiffer(s.bank.tables, Id(a), Id(b));
    }
  }

  lemma TablesNumbered(s: Shop)
    requires ShopOk(s)
    ensures Tables.Numbered(s.bank.tables)
  {
    hide Tables.Numbered;
  }

  lemma SavedIsRow(s: Shop, o: nat)
    requires Inv(Seen(s)) && o < |s.desks| && s.desks[o].row.paymentId.Some?
    ensures
      var rows := Tables.Part(s.bank.tables, Id(o)).rows;
      rows != [] && s.desks[o].row.paymentId == Some(rows[0].id)
  {
    assert CaseOk(Seen(s).cases[o], s.ledger.claims[o]);
  }
}
