/**
 * The whole shop: one inventory table, any number of orders, and every interleaving of their
 * workflow steps, payment attempts and the stock adjustments made meanwhile.
 */
module Platform {
  import opened Common
  import opened Inventory
  import opened Ledger
  import opened Orders
  import opened Saga
  import Pay = Payment

  /** Orders are numbered from 0 here; order `o` has the id `o + 1` in the source, so ids are truthy. */
  datatype World = World(ledger: Ledger, cases: seq<Case>)

  datatype Action =
    | AdjustStock(product: int, change: int)
    | InitializeStock(product: int, quantity: int)
    | CreateOrder(items: seq<Item>, prices: Prices, net: Net)
    | PlaceNext(o: nat, net: Net, via: nat)
    | StartCancel(o: nat)
    | CancelNext(o: nat, net: Net, via: nat, listing: seq<Item>)
    | StartAttempt(o: nat, attempt: Pay.Attempt)
    | AdvanceAttempt(o: nat, k: nat, luck: Pay.Luck)

  const EMPTY_WORLD := World(Ledger(map[], map[], []), [])

  function Granted(l: Ledger, call: Option<Activity>, net: Net, items: seq<Item>): bool {
    call.Some? && net == Delivered && RunAll(call.value, l.table, items).Some?
  }

  /** An inventory call that is not delivered has rolled back, so it leaves the ledger alone. */
  function AfterCall(l: Ledger, call: Option<Activity>, net: Net, o: nat, items: seq<Item>): Ledger
    requires o < |l.claims|
  {
    if call.Some? && net == Delivered then CallWith(l, call.value, o, items) else l
  }

  function Create(w: World, items: seq<Item>, prices: Prices, net: Net): World {
    var row := Created(items, prices);
    if row.None? || net == Unreached then w
    else World(Open(w.ledger, items),
               w.cases + [NewCase(row.value, if net == Delivered then Reserving else Abandoned)])
  }

  function PlaceOne(w: World, o: nat, net: Net, via: nat): World
    requires o < |w.cases| && o < |w.ledger.claims|
  {
    var call, items := PlaceCall(w.cases[o]), w.ledger.claims[o].items;
    World(AfterCall(w.ledger, call, net, o, items),
          w.cases[o := PlaceStep(w.cases[o], net, via, Granted(w.ledger, call, net, items))])
  }

  function CancelOne(w: World, o: nat, net: Net, via: nat, listing: seq<Item>): World
    requires o < |w.cases| && o < |w.ledger.claims|
  {
    var call, items := CancelCall(w.cases[o]), w.cases[o].cancel.listing;
    World(AfterCall(w.ledger, call, net, o, items),
          w.cases[o := CancelStep(w.cases[o], net, via, Granted(w.ledger, call, net, items), listing)])
  }

  function PayOne(w: World, o: nat, e: Pay.Event): World
    requires o < |w.cases|
  {
    var c := w.cases[o];
    w.(cases := w.cases[o := c.(account := Pay.AccountStep(c.account, e, c.row.total))])
  }

  /** An action that is not possible in `w` changes nothing. */
  function Step(w: World, a: Action): World {
    match a
    case AdjustStock(p, d) => w.(ledger := Adjust(w.ledger, p, d))
    case InitializeStock(p, q) => w.(ledger := Initialize(w.ledger, p, q))
    case CreateOrder(items, prices, net) => Create(w, items, prices, net)
    case PlaceNext(o, net, via) => if Known(w, o) then PlaceOne(w, o, net, via) else w
    case CancelNext(o, net, via, listing) => if Known(w, o) then CancelOne(w, o, net, via, listing) else w
    case StartCancel(o) =>
      if Known(w, o) && MayCancel(w.cases[o])
      then w.(cases := w.cases[o := CancelAt(w.cases[o], ReadingPayment)]) else w
    case StartAttempt(o, attempt) =>
      if Known(w, o) && MayStart(w.cases[o], attempt) then PayOne(w, o, Pay.Start(attempt)) else w
    case AdvanceAttempt(o, k, luck) => if Known(w, o) then PayOne(w, o, Pay.Advance(k, luck)) else w
  }

  predicate Known(w: World, o: nat) { o < |w.cases| && o < |w.ledger.claims| }

  function Exec(w: World, actions: seq<Action>): World
    decreases |actions|
  {
    if actions == [] then w else Exec(Step(w, actions[0]), actions[1..])
  }

  // ----- what the source takes for granted -----

  /**
   * What no code checks but every guarantee needs: no quantity is negative, and the gate only lets
   * a cancel in when no workflow of the order is running and the saved payment id tells truly
   * whether the stock was confirmed.
   */
  predicate Fit(w: World, a: Action) {
    match a
    case CreateOrder(items, _, _) => NonNegative(items)
    case StartCancel(o) =>
      Known(w, o) && MayCancel(w.cases[o]) ==>
        && !PlaceLive(w.cases[o].place.pc) && !CancelLive(w.cases[o].cancel.pc)
        && CancelFits(w.ledger.claims[o].hold, w.cases[o].row.paymentId)
    case _ => true
  }

  predicate Disciplined(w: World, actions: seq<Action>)
    decreases |actions|
  {
    actions == [] || (Fit(w, actions[0]) && Disciplined(Step(w, actions[0]), actions[1..]))
  }

  // ----- the invariant -----

  ghost predicate Inv(w: World) {
    && Balanced(w.ledger)
    && |w.cases| == |w.ledger.claims|
    && forall o :: 0 <= o < |w.cases| ==> CaseOk(w.cases[o], w.ledger.claims[o])
  }

  lemma AfterCallBalanced(l: Ledger, call: Option<Activity>, net: Net, o: nat, items: seq<Item>)
    requires Balanced(l) && o < |l.claims|
    requires call.Some? ==> l.claims[o].hold == Before(call.value)
    requires call.Some? ==> multiset(items) == multiset(l.claims[o].items)
    ensures Balanced(AfterCall(l, call, net, o, items))
    ensures AfterCall(l, call, net, o, items).claims ==
              l.claims[o := ClaimAfter(l.claims[o], call, net, Granted(l, call, net, items))]
    ensures call.Some? && call != Some(Reserve) && net == Delivered ==> Granted(l, call, net, items)
  {
    if call.Some? {
      assert Sound(l, l.claims[o]);
      OrderIndependent(call.value, l.table, l.claims[o].items, items);
      CallKeepsBalance(l, call.value, o);
      if call != Some(Reserve) {
        NeverRefused(l, call.value, o);
      }
    }
  }

  /** The part of the invariant that one order's steps rely on: everything but the other orders' cases. */
  ghost predicate Level(w: World) { Balanced(w.ledger) && |w.cases| == |w.ledger.claims| }

  predicate OrderOk(w: World, o: nat) { Known(w, o) && CaseOk(w.cases[o], w.ledger.claims[o]) }

  /** `w'` differs from `w` in nothing but the table, and order `o` with its claim. */
  predicate OnlyOrder(w: World, w': World, o: nat) {
    && Known(w, o) && Known(w', o)
    && w'.cases == w.cases[o := w'.cases[o]] && w'.ledger.claims == w.ledger.claims[o := w'.ledger.claims[o]]
  }

  lemma PlaceOneKeeps(w: World, o: nat, net: Net, via: nat)
    requires Level(w) && OrderOk(w, o)
    ensures
      var w' := PlaceOne(w, o, net, via);
      Level(w') && OrderOk(w', o) && OnlyOrder(w, w', o)
  {
    var c, claim := w.cases[o], w.ledger.claims[o];
    var call := PlaceCall(c);
    if call.Some? {
      PlaceCallFitsHold(c, claim);
    }
    AfterCallBalanced(w.ledger, call, net, o, claim.items);
    PlaceStepOk(c, claim, net, via, Granted(w.ledger, call, net, claim.items));
  }

  lemma CancelOneKeeps(w: World, o: nat, net: Net, via: nat, listing: seq<Item>)
    requires Level(w) && OrderOk(w, o)
    ensures
      var w' := CancelOne(w, o, net, via, listing);
      Level(w') && OrderOk(w', o) && OnlyOrder(w, w', o)
  {
    var c, claim := w.cases[o], w.ledger.claims[o];
    var call := CancelCall(c);
    if call.Some? {
      CancelCallFitsHold(c, claim);
    }
    AfterCallBalanced(w.ledger, call, net, o, c.cancel.listing);
    CancelStepOk(c, claim, net, via, Granted(w.ledger, call, net, c.cancel.listing), listing);
  }

  lemma CreateKeeps(w: World, items: seq<Item>, prices: Prices, net: Net)
    requires Level(w) && NonNegative(items)
    ensures
      var w' := Create(w, items, prices, net);
      && Level(w')
      && (w' != w ==>
            && w'.cases[..|w.cases|] == w.cases && w'.ledger.claims[..|w.cases|] == w.ledger.claims
            && |w'.cases| == |w.cases| + 1 && OrderOk(w', |w.cases|))
  {
    if Create(w, items, prices, net) != w {
      CreatedRoundTrip(items, prices);
      OpenKeepsBalance(w.ledger, items);
      var row := Created(items, prices).value;
      var c := NewCase(row, if net == Delivered then Reserving else Abandoned);
      assert CaseOk(c, Claim(items, Free));
    }
  }

  /** The order that an action is about. */
  function Subject(a: Action): Option<nat> {
    match a
    case PlaceNext(o, _, _) => Some(o)
    case StartCancel(o) => Some(o)
    case CancelNext(o, _, _, _) => Some(o)
    case StartAttempt(o, _) => Some(o)
    case AdvanceAttempt(o, _, _) => Some(o)
    case _ => None
  }

  /** A step about one order that is itself in order, whatever the others are like. */
  lemma OwnStepKeeps(w: World, a: Action, o: nat)
    requires Level(w) && OrderOk(w, o) && Fit(w, a) && Subject(a) == Some(o)
    ensures Level(Step(w, a)) && OrderOk(Step(w, a), o) && OnlyOrder(w, Step(w, a), o)
  {
    match a
    case PlaceNext(_, net, via) => PlaceOneKeeps(w, o, net, via);
    case CancelNext(_, net, via, listing) => CancelOneKeeps(w, o, net, via, listing);
    case StartCancel(_) =>
      if MayCancel(w.cases[o]) {
        StartCancelOk(w.cases[o], w.ledger.claims[o]);
      }
    case StartAttempt(_, attempt) =>
      if MayStart(w.cases[o], attempt) {
        AccountEventOk(w.cases[o], w.ledger.claims[o], Pay.Start(attempt));
      }
    case AdvanceAttempt(_, k, luck) => AccountEventOk(w.cases[o], w.ledger.claims[o], Pay.Advance(k, luck));
  }

  /** A step about no order keeps every order that is in order so, and opens only such. */
  lemma SupplyStepKeeps(w: World, a: Action)
    requires Level(w) && Fit(w, a) && Subject(a).None?
    ensures Level(Step(w, a)) && |Step(w, a).cases| >= |w.cases|
    ensures forall o :: 0 <= o < |w.cases| && OrderOk(w, o) ==> OrderOk(Step(w, a), o)
    ensures forall o :: |w.cases| <= o < |Step(w, a).cases| ==> OrderOk(Step(w, a), o)
  {
    match a
    case AdjustStock(p, d) => AdjustKeepsBalance(w.ledger, p, d);
    case InitializeStock(p, q) => InitializeKeepsBalance(w.ledger, p, q);
    case CreateOrder(items, prices, net) =>
      CreateKeeps(w, items, prices, net);
      var w' := Step(w, a);
      if w' != w {
        forall o | 0 <= o < |w.cases| ensures w'.cases[o] == w.cases[o] && w'.ledger.claims[o] == w.ledger.claims[o] {
          assert w'.cases[o] == w'.cases[..|w.cases|][o] && w'.ledger.claims[o] == w'.ledger.claims[..|w.cases|][o];
        }
      }
  }

  lemma StepKeepsInv(w: World, a: Action)
    requires Inv(w) && Fit(w, a)
    ensures Inv(Step(w, a))
  {
    if Subject(a).None? {
      SupplyStepKeeps(w, a);
      forall o | 0 <= o < |Step(w, a).cases| ensures CaseOk(Step(w, a).cases[o], Step(w, a).ledger.claims[o]) {
        assert OrderOk(Step(w, a), o) by {
          if o < |w.cases| {
            assert OrderOk(w, o);
          }
        }
      }
    } else if Known(w, Subject(a).value) {
      OwnStepKeeps(w, a, Subject(a).value);
    }
  }

  lemma {:induction false} ExecKeepsInv(w: World, actions: seq<Action>)
    requires Inv(w) && Disciplined(w, actions)
    ensures Inv(Exec(w, actions))
    decreases |actions|
  {
    if actions != [] {
      StepKeepsInv(w, actions[0]);
      ExecKeepsInv(Step(w, actions[0]), actions[1..]);
    }
  }

  /** Every state that a disciplined interleaving reaches from the empty shop satisfies the invariant. */
  lemma Reachable(actions: seq<Action>)
    requires Disciplined(EMPTY_WORLD, actions)
    ensures Inv(Exec(EMPTY_WORLD, actions))
  {
    ExecKeepsInv(EMPTY_WORLD, actions);
  }
}
