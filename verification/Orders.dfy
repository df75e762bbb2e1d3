/** Order rows: how they are created, read back, updated and gated. */
module Orders {
  import opened Common
  import opened Inventory

  datatype OrderStatus = PENDING | PAID | SHIPPING | DELIVERED | CANCELLED | PLACE_FAILED | CANCEL_FAILED | REFUNDED

  datatype Line = Line(product: int, quantity: int, price: int)

  datatype OrderRow = OrderRow(status: OrderStatus, total: int, paymentId: Option<nat>, lines: seq<Line>)
  {
    predicate IsCancelable() { status == PENDING || status == PAID }
  }

  // Catalogue prices at the time of the order. A product the catalogue no longer offers has none.
  type Prices = map<int, int>

  /** `reduce` over the items, from the left; `None` where the source's sum becomes NaN. */
  function TotalFrom(sum: int, items: seq<Item>, prices: Prices): Option<int>
    decreases |items|
  {
    if items == [] then Some(sum)
    else if items[0].product !in prices then None
    else TotalFrom(sum + prices[items[0].product] * items[0].quantity, items[1..], prices)
  }

  predicate AllPriced(items: seq<Item>, prices: Prices) {
    forall i :: 0 <= i < |items| ==> items[i].product in prices
  }

  function PricedLines(items: seq<Item>, prices: Prices): seq<Line>
    requires AllPriced(items, prices)
  {
    seq(|items|, i requires 0 <= i < |items| => Line(items[i].product, items[i].quantity, prices[items[i].product]))
  }

  /** The row that `createOrder` inserts; `None` when the insert is rejected for a missing price. */
  function Created(items: seq<Item>, prices: Prices): Option<OrderRow> {
    var total := TotalFrom(0, items, prices);
    if total.None? then None
    else
      PricedIffTotal(0, items, prices);
      Some(OrderRow(PENDING, total.value, None, PricedLines(items, prices)))
  }

  /** What the stored lines add up to. */
  function LinesTotal(lines: seq<Line>): int {
    if lines == [] then 0 else lines[0].price * lines[0].quantity + LinesTotal(lines[1..])
  }

  /** What the items cost at these prices. */
  function Bill(items: seq<Item>, prices: Prices): int {
    if items == [] then 0
    else (if items[0].product in prices then prices[items[0].product] * items[0].quantity else 0) +
         Bill(items[1..], prices)
  }

  /** One line per item at the catalogue's price, and the bill as the total. */
  predicate PricedAs(row: OrderRow, items: seq<Item>, prices: Prices) {
    && |row.lines| == |items| && row.total == Bill(items, prices)
    && forall i :: 0 <= i < |items| ==>
         && items[i].product in prices
         && row.lines[i] == Line(items[i].product, items[i].quantity, prices[items[i].product])
  }

  /** `getOrderItems` on one listing of the stored lines. */
  function ItemsOf(lines: seq<Line>): seq<Item> {
    seq(|lines|, i requires 0 <= i < |lines| => Item(lines[i].product, lines[i].quantity))
  }

  function WithPaymentId(row: OrderRow, id: nat): OrderRow { row.(paymentId := Some(id)) }

  function WithStatus(row: OrderRow, status: OrderStatus): OrderRow { row.(status := status) }

  lemma {:induction false} PricedIffTotal(sum: int, items: seq<Item>, prices: Prices)
    ensures TotalFrom(sum, items, prices).Some? <==> AllPriced(items, prices)
    decreases |items|
  {
    if items != [] && items[0].product in prices {
      PricedIffTotal(sum + prices[items[0].product] * items[0].quantity, items[1..], prices);
      forall i | 0 < i < |items| ensures items[i] == items[1..][i - 1] {
      }
    }
  }

  lemma {:induction false} TotalIsLinesTotal(sum: int, items: seq<Item>, prices: Prices)
    requires AllPriced(items, prices)
    ensures TotalFrom(sum, items, prices) == Some(sum + LinesTotal(PricedLines(items, prices)))
    decreases |items|
  {
    if items != [] {
      TotalIsLinesTotal(sum + prices[items[0].product] * items[0].quantity, items[1..], prices);
      assert PricedLines(items, prices)[1..] == PricedLines(items[1..], prices);
    }
  }

  lemma {:induction false} TotalIsBill(sum: int, items: seq<Item>, prices: Prices)
    requires AllPriced(items, prices)
    ensures TotalFrom(sum, items, prices) == Some(sum + Bill(items, prices))
    decreases |items|
  {
    if items != [] {
      TotalIsBill(sum + prices[items[0].product] * items[0].quantity, items[1..], prices);
    }
  }

  /**
   * The stored lines are the items at the catalogue's prices of that moment, the stored total is the
   * sum over them, and they read back as the items ordered.
   */
  lemma CreatedRoundTrip(items: seq<Item>, prices: Prices)
    ensures Created(items, prices).Some? <==> AllPriced(items, prices)
    ensures Created(items, prices).Some? ==>
              var row := Created(items, prices).value;
              && row.total == LinesTotal(row.lines)
              && ItemsOf(row.lines) == items && PricedAs(row, items, prices)
              && row.status == PENDING && row.paymentId == None
  {
    PricedIffTotal(0, items, prices);
    if AllPriced(items, prices) {
      TotalIsLinesTotal(0, items, prices);
      TotalIsBill(0, items, prices);
    }
  }

  /** Listing the stored lines in another order asks for the same units of every product. */
  lemma ListingKeepsDemand(lines: seq<Line>, listing: seq<Item>, p: int)
    requires multiset(listing) == multiset(ItemsOf(lines))
    ensures Demand(listing, p) == Demand(ItemsOf(lines), p)
  {
    DemandOfPermutation(listing, ItemsOf(lines), p);
  }
}
