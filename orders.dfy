/** The order records of the mock backend (`MockOrder`, `MockOrderItem`) and
    the derived-amount invariant that every aggregation relies on. */
module Orders {
  import opened Seqs

  datatype Status = Pending | Paid | Shipped | Completed | Cancelled

  /** The string a status is stored as. */
  function StatusName(s: Status): string
  {
    match s
    case Pending => "pending"
    case Paid => "paid"
    case Shipped => "shipped"
    case Completed => "completed"
    case Cancelled => "cancelled"
  }

  datatype PayMethod = Alipay | Wechat | Card | Cash

  /** One line of an order; money is in whole units. */
  datatype OrderItem = OrderItem(
    id: string,
    productName: string,
    ip: string,
    category: string,
    scale: string,
    price: int,
    quantity: int,
    subtotal: int)

  datatype Order = Order(
    id: int,
    orderNo: string,
    customerName: string,
    phone: string,
    address: string,
    status: Status,
    payMethod: PayMethod,
    createdAt: string,
    remark: string,
    totalAmount: int,
    items: seq<OrderItem>)

  function SubtotalOf(item: OrderItem): int { item.subtotal }
  function QuantityOf(item: OrderItem): int { item.quantity }
  function TotalAmountOf(order: Order): int { order.totalAmount }

  /** The date part `createdAt.slice(0, 10)`, "YYYY-MM-DD" for well-formed timestamps. */
  function Day(order: Order): string
  {
    Slice(order.createdAt, 0, 10)
  }

  /** Every item of every order, order by order. */
  function AllItems(orders: seq<Order>): seq<OrderItem>
  {
    if orders == [] then [] else orders[0].items + AllItems(orders[1..])
  }

  lemma {:induction false} AllItemsAppend(a: seq<Order>, b: seq<Order>)
    ensures AllItems(a + b) == AllItems(a) + AllItems(b)
  {
    if a == [] {
      assert a + b == b;
    } else {
      assert (a + b)[1..] == a[1..] + b;
      AllItemsAppend(a[1..], b);
    }
  }

  /** The items of the first i + 1 orders extend those of the first i. */
  lemma AllItemsPrefix(orders: seq<Order>, i: nat)
    requires i < |orders|
    ensures AllItems(orders[..i + 1]) == AllItems(orders[..i]) + orders[i].items
  {
    assert orders[..i + 1] == orders[..i] + [orders[i]];
    AllItemsAppend(orders[..i], [orders[i]]);
    assert AllItems([orders[i]]) == orders[i].items + AllItems([]);
  }

  predicate ItemConsistent(item: OrderItem)
  {
    item.subtotal == item.price * item.quantity
  }

  /** Each subtotal is price times quantity, and the order total is their sum. */
  predicate OrderConsistent(order: Order)
  {
    && (forall k :: 0 <= k < |order.items| ==> ItemConsistent(order.items[k]))
    && order.totalAmount == SumOf(order.items, SubtotalOf)
  }

  predicate AllConsistent(orders: seq<Order>)
  {
    forall i :: 0 <= i < |orders| ==> OrderConsistent(orders[i])
  }

  /** On consistent orders, summing order totals and summing item subtotals agree. */
  lemma {:induction false} TotalsMatchSubtotals(orders: seq<Order>)
    requires AllConsistent(orders)
    ensures SumOf(orders, TotalAmountOf) == SumOf(AllItems(orders), SubtotalOf)
  {
    if orders != [] {
      TotalsMatchSubtotals(orders[1..]);
      SumOfAppend(orders[0].items, AllItems(orders[1..]), SubtotalOf);
    }
  }
}
