/** The order service over its table of rows; the row of order id `n` is at index `n - 1`. */
module OrderService {
  import opened Common
  import opened Inventory
  import opened Orders

  datatype CancelReply = NotFound | NotCancelable | Started

  class OrderStore {
    var rows: seq<OrderRow>
    ghost var saved: map<int, nat>   // the payment id last saved for an order, if any

    /** Totals are those of the stored lines, and payment ids those last saved. */
    ghost predicate Valid() reads this {
      && (forall i :: 0 <= i < |rows| ==> rows[i].total == LinesTotal(rows[i].lines))
      && (forall i :: 0 <= i < |rows| ==> rows[i].paymentId == if i + 1 in saved then Some(saved[i + 1]) else None)
      && (forall id :: id in saved ==> Exists(id))
    }

    constructor ()
      ensures Valid() && rows == [] && saved == map[]
    {
      rows, saved := [], map[];
    }

    predicate Exists(id: int) reads this { 1 <= id <= |rows| }

    /** The new row is PENDING, reads back as the items, and has their prices and the sum over them. */
    method CreateOrder(items: seq<Item>, prices: Prices) returns (id: Option<nat>)
      requires Valid()
      modifies this
      ensures Valid() && saved == old(saved)
      ensures id.Some? <==> AllPriced(items, prices)
      ensures id.None? ==> rows == old(rows)
      ensures id.Some? ==>
        && id.value == |old(rows)| + 1 && |rows| == id.value && rows[..|old(rows)|] == old(rows)
        && rows[id.value - 1].status == PENDING && rows[id.value - 1].paymentId == None
        && ItemsOf(rows[id.value - 1].lines) == items && PricedAs(rows[id.value - 1], items, prices)
        && rows[id.value - 1].total == LinesTotal(rows[id.value - 1].lines)
    {
      CreatedRoundTrip(items, prices);
      var total := TotalFrom(0, items, prices);
      if total.None? { return None; }
      PricedIffTotal(0, items, prices);
      rows := rows + [OrderRow(PENDING, total.value, None, PricedLines(items, prices))];
      id := Some(|rows|);
    }

    /** The stored total is the sum of price times quantity over the stored lines. */
    method GetOrderTotalAmount(id: int) returns (total: Option<int>)
      requires Valid()
      ensures total.Some? <==> Exists(id)
      ensures total.Some? ==> total.value == LinesTotal(rows[id - 1].lines)
    {
      if !(1 <= id <= |rows|) { return None; }
      assert Exists(id);
      total := Some(rows[id - 1].total);
    }

    /** The payment id last saved: `None` for an order that does not exist, `Some(None)` if none ever was. */
    method GetPaymentId(id: int) returns (paymentId: Option<Option<nat>>)
      requires Valid()
      ensures paymentId.Some? <==> Exists(id)
      ensures paymentId.Some? ==> paymentId.value == if id in saved then Some(saved[id]) else None
    {
      if !(1 <= id <= |rows|) { return None; }
      assert Exists(id);
      paymentId := Some(rows[id - 1].paymentId);
    }

    /** The items ask for exactly what the stored lines do. */
    method GetOrderItems(id: int) returns (items: Option<seq<Item>>)
      ensures items.Some? <==> Exists(id)
      ensures items.Some? ==> |items.value| == |rows[id - 1].lines|
      ensures items.Some? ==> forall i :: 0 <= i < |items.value| ==>
        items.value[i] == Item(rows[id - 1].lines[i].product, rows[id - 1].lines[i].quantity)
    {
      if !(1 <= id <= |rows|) { return None; }
      items := Some(ItemsOf(rows[id - 1].lines));
    }

    /** False when no row is affected; otherwise only that row's payment id changes. */
    method SavePaymentId(id: int, paymentId: nat) returns (affected: bool)
      requires Valid()
      modifies this
      ensures Valid() && affected == old(Exists(id))
      ensures saved == if affected then old(saved)[id := paymentId] else old(saved)
      ensures rows == if affected then old(rows)[id - 1 := WithPaymentId(old(rows)[id - 1], paymentId)] else old(rows)
    {
      if !(1 <= id <= |rows|) { return false; }
      assert Exists(id);
      rows := rows[id - 1 := rows[id - 1].(paymentId := Some(paymentId))];
      saved := saved[id := paymentId];
      affected := true;
    }

    /** False when no row is affected; otherwise only that row's status changes. */
    method UpdateOrderStatus(id: int, status: OrderStatus) returns (affected: bool)
      requires Valid()
      modifies this
      ensures Valid() && affected == old(Exists(id)) && saved == old(saved)
      ensures rows == if affected then old(rows)[id - 1 := WithStatus(old(rows)[id - 1], status)] else old(rows)
    {
      if !(1 <= id <= |rows|) { return false; }
      assert Exists(id);
      rows := rows[id - 1 := rows[id - 1].(status := status)];
      affected := true;
    }

    /** The gate in front of the cancel workflow: only PENDING and PAID orders pass. */
    method CancelOrder(id: int) returns (reply: CancelReply)
      ensures reply == NotFound <==> !Exists(id)
      ensures reply == Started <==> Exists(id) && (rows[id - 1].status == PENDING || rows[id - 1].status == PAID)
    {
      if !(1 <= id <= |rows|) { return NotFound; }
      reply := if rows[id - 1].IsCancelable() then Started else NotCancelable;
    }
  }
}
