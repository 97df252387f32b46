/** The in-memory order collection: the one-time computation of subtotals and
    totals over the generated orders, lookup by id, and the status update, the
    only change ever made to a stored order. */
module OrderCollection {
  import opened Seqs
  import opened Numbers
  import opened Orders

  // ---------------------------------------------------------------------------
  // Initialisation
  // ---------------------------------------------------------------------------

  /** `items.map(item => ({ ...item, subtotal: item.price * item.quantity }))`. */
  function WithSubtotals(items: seq<OrderItem>): (r: seq<OrderItem>)
    ensures |r| == |items|
    ensures forall k :: 0 <= k < |r| ==> r[k] == items[k].(subtotal := r[k].subtotal)
    ensures forall k :: 0 <= k < |r| ==> ItemConsistent(r[k])
  {
    if items == [] then []
    else [items[0].(subtotal := items[0].price * items[0].quantity)] + WithSubtotals(items[1..])
  }

  /** One order after initialisation: fresh subtotals, and their sum as the total. */
  function Initialised(order: Order): Order
  {
    var items := WithSubtotals(order.items);
    order.(items := items, totalAmount := SumOf(items, SubtotalOf))
  }

  /** b differs from a at most in the derived amounts. */
  predicate SameButAmounts(a: Order, b: Order)
  {
    && b == a.(items := b.items, totalAmount := b.totalAmount)
    && |b.items| == |a.items|
    && forall k :: 0 <= k < |a.items| ==> b.items[k] == a.items[k].(subtotal := b.items[k].subtotal)
  }

  /** Initialisation establishes the amount invariant and touches nothing else. */
  lemma InitialisedIsConsistent(order: Order)
    ensures OrderConsistent(Initialised(order))
    ensures SameButAmounts(order, Initialised(order))
  {
  }

  /** The generator's ranges: two items, prices 99..1999, quantities 1..3. */
  predicate Generated(order: Order)
  {
    && |order.items| == 2
    && forall k :: 0 <= k < 2 ==>
         99 <= order.items[k].price <= 1999 && 1 <= order.items[k].quantity <= 3
  }

  lemma ProductBounds(price: int, quantity: int)
    requires 99 <= price <= 1999 && 1 <= quantity <= 3
    ensures 99 <= price * quantity <= 5997
  {
    assert price * quantity == if quantity == 1 then price else if quantity == 2 then price + price else price + price + price;
  }

  /** For generated orders every subtotal lies in 99..5997 and every total in 198..11994. */
  lemma GeneratedAmountBounds(order: Order)
    requires Generated(order)
    ensures forall k :: 0 <= k < 2 ==> 99 <= Initialised(order).items[k].subtotal <= 5997
    ensures 198 <= Initialised(order).totalAmount <= 11994
  {
    var items := Initialised(order).items;
    ProductBounds(order.items[0].price, order.items[0].quantity);
    ProductBounds(order.items[1].price, order.items[1].quantity);
    assert SumOf(items, SubtotalOf) == items[0].subtotal + SumOf(items[1..], SubtotalOf);
    assert SumOf(items[1..], SubtotalOf) == items[1].subtotal + SumOf(items[2..], SubtotalOf);
  }

  // ---------------------------------------------------------------------------
  // Lookup
  // ---------------------------------------------------------------------------

  /** An id as the handlers receive it: a JSON number, a string, or nothing. */
  datatype IdParam = IdNumber(n: int) | IdString(s: string) | IdMissing

  /** `String(id)`. */
  function IdKey(id: IdParam): string
  {
    match id
    case IdNumber(n) => DecimalString(n)
    case IdString(s) => s
    case IdMissing => "undefined"
  }

  /** A handler's answer: the order (code 200), or code 404 because no order
      matched or, in the numeric lookup, because the id was missing or not a number. */
  datatype Reply = Found(order: Order) | NoSuchOrder | NoValidId

  function Code(r: Reply): int
  {
    if r.Found? then 200 else 404
  }

  predicate KeyMatches(order: Order, key: string)
  {
    DecimalString(order.id) == key
  }

  /** `orders.findIndex(o => String(o.id) === key)`, with |orders| for -1. */
  function IndexByKey(orders: seq<Order>, key: string): (i: nat)
    ensures i <= |orders|
    ensures i < |orders| ==> KeyMatches(orders[i], key)
    ensures forall k :: 0 <= k < i ==> !KeyMatches(orders[k], key)
  {
    if orders == [] then 0
    else if KeyMatches(orders[0], key) then 0
    else 1 + IndexByKey(orders[1..], key)
  }

  /** Order detail by string comparison of ids. */
  function Detail(orders: seq<Order>, id: Option<string>): (r: Reply)
    ensures r.Found? || r.NoSuchOrder?
    ensures r.Found? <==> exists i :: 0 <= i < |orders| && KeyMatches(orders[i], IdKey(Param(id)))
    ensures r.Found? ==> exists i :: 0 <= i < |orders| && orders[i] == r.order
                                     && KeyMatches(orders[i], IdKey(Param(id)))
                                     && forall k :: 0 <= k < i ==> !KeyMatches(orders[k], IdKey(Param(id)))
  {
    var i := IndexByKey(orders, IdKey(Param(id)));
    if i < |orders| then Found(orders[i]) else NoSuchOrder
  }

  /** A query-string value, absent or present. */
  function Param(id: Option<string>): IdParam
  {
    match id
    case None => IdMissing
    case Some(s) => IdString(s)
  }

  /** Without an id nothing matches: no integer prints as "undefined". */
  lemma DetailWithoutId(orders: seq<Order>)
    ensures Detail(orders, None) == NoSuchOrder
  {
    forall i | 0 <= i < |orders| ensures !KeyMatches(orders[i], "undefined") {
      var s := DecimalString(orders[i].id);
      assert s[0] != "undefined"[0];
    }
  }

  /** `orders.findIndex(o => o.id === v)`, with |orders| for -1. */
  function IndexByNumber(orders: seq<Order>, v: real): (i: nat)
    ensures i <= |orders|
    ensures i < |orders| ==> orders[i].id as real == v
    ensures forall k :: 0 <= k < i ==> orders[k].id as real != v
  {
    if orders == [] then 0
    else if orders[0].id as real == v then 0
    else 1 + IndexByNumber(orders[1..], v)
  }

  /** Order detail by numeric comparison of ids: a missing, empty or
      non-numeric id is refused before any order is looked at. */
  function DetailByNumber(orders: seq<Order>, id: Option<string>): (r: Reply)
    ensures r.NoValidId? <==> (id.None? || id.value == "" || ParseNumber(id.value).None?)
    ensures r.Found? ==> exists i :: 0 <= i < |orders| && orders[i] == r.order
                                     && Some(orders[i].id as real) == ParseNumber(id.value)
                                     && forall k :: 0 <= k < i ==> Some(orders[k].id as real) != ParseNumber(id.value)
    ensures r.NoSuchOrder? ==> forall k :: 0 <= k < |orders| ==> Some(orders[k].id as real) != ParseNumber(id.value)
  {
    if id.None? || id.value == "" then NoValidId
    else match ParseNumber(id.value)
      case None => NoValidId
      case Some(v) =>
        var i := IndexByNumber(orders, v);
        if i < |orders| then Found(orders[i]) else NoSuchOrder
  }

  /** For an id written as `String(n)`, the two lookups agree: both return the
      first order whose id is n. */
  lemma DetailsAgree(orders: seq<Order>, n: int)
    ensures DetailByNumber(orders, Some(DecimalString(n))) == Detail(orders, Some(DecimalString(n)))
  {
    ParseDecimalString(n);
    forall k | 0 <= k < |orders|
      ensures KeyMatches(orders[k], DecimalString(n)) <==> orders[k].id as real == n as real
    {
      DecimalStringInjective(orders[k].id, n);
    }
    var i := IndexByKey(orders, DecimalString(n));
    assert i == IndexByNumber(orders, n as real);
  }

  // ---------------------------------------------------------------------------
  // Status update
  // ---------------------------------------------------------------------------

  /** The collection after setting the status of the first order matching key. */
  function WithStatus(orders: seq<Order>, key: string, status: Status): (r: seq<Order>)
    ensures |r| == |orders|
  {
    var i := IndexByKey(orders, key);
    if i < |orders| then orders[i := orders[i].(status := status)] else orders
  }

  /** An unmatched key leaves the collection as it was; a matched one changes
      exactly the status of the first match. */
  lemma WithStatusChangesOnlyStatus(orders: seq<Order>, key: string, status: Status)
    ensures var i := IndexByKey(orders, key);
      && (i == |orders| ==> WithStatus(orders, key, status) == orders)
      && (i < |orders| ==>
            && WithStatus(orders, key, status)[i].status == status
            && WithStatus(orders, key, status)[i] == orders[i].(status := status)
            && forall k :: 0 <= k < |orders| && k != i ==> WithStatus(orders, key, status)[k] == orders[k])
  {
  }

  /** Changing a status never changes which order a key finds. */
  lemma IndexByKeyIgnoresStatus(orders: seq<Order>, key: string, status: Status)
    ensures IndexByKey(WithStatus(orders, key, status), key) == IndexByKey(orders, key)
  {
    var i := IndexByKey(orders, key);
    var r := WithStatus(orders, key, status);
    if i < |orders| {
      assert forall k :: 0 <= k < |r| ==> r[k].id == orders[k].id;
    }
  }

  /** Repeating an update is idempotent, and a further update with another status
      is the same as doing only that one. */
  lemma WithStatusIdempotent(orders: seq<Order>, key: string, s: Status, t: Status)
    ensures WithStatus(WithStatus(orders, key, s), key, s) == WithStatus(orders, key, s)
    ensures WithStatus(WithStatus(orders, key, s), key, t) == WithStatus(orders, key, t)
  {
    IndexByKeyIgnoresStatus(orders, key, s);
  }

  /** A status update keeps the amount invariant. */
  lemma WithStatusKeepsConsistency(orders: seq<Order>, key: string, status: Status)
    requires AllConsistent(orders)
    ensures AllConsistent(WithStatus(orders, key, status))
  {
  }

  /** The shared, mutable order list. The same code runs over two such lists in
      the source: the one the order endpoints share with the base data, and the
      report module's own copy. */
  class OrderStore {
    var orders: seq<Order>

    /** The collection as the data generator produced it, amounts not yet computed. */
    constructor (generated: seq<Order>)
      ensures orders == generated
    {
      orders := generated;
    }

    /** Recomputes each order's subtotals and total in place. */
    method Initialise()
      modifies this
      ensures |orders| == |old(orders)|
      ensures forall i :: 0 <= i < |orders| ==> orders[i] == Initialised(old(orders)[i])
      ensures forall i :: 0 <= i < |orders| ==> SameButAmounts(old(orders)[i], orders[i])
      ensures AllConsistent(orders)
    {
      for i := 0 to |orders|
        invariant |orders| == |old(orders)|
        invariant forall k :: 0 <= k < i ==> orders[k] == Initialised(old(orders)[k])
        invariant forall k :: i <= k < |orders| ==> orders[k] == old(orders)[k]
      {
        var order := orders[i];
        var items := WithSubtotals(order.items);
        order := order.(items := items, totalAmount := SumOf(items, SubtotalOf));
        orders := orders[i := order];
      }
      forall i | 0 <= i < |orders|
        ensures SameButAmounts(old(orders)[i], orders[i]) && OrderConsistent(orders[i])
      {
        InitialisedIsConsistent(old(orders)[i]);
      }
    }

    /** `updateStatus`: 404 and no change when no order matches `String(id)`;
        otherwise the first match gets the new status and is returned. */
    method UpdateStatus(id: IdParam, status: Status) returns (r: Reply)
      modifies this
      ensures orders == WithStatus(old(orders), IdKey(id), status)
      ensures var i := IndexByKey(old(orders), IdKey(id));
        r == if i < |orders| then Found(orders[i]) else NoSuchOrder
      ensures AllConsistent(old(orders)) ==> AllConsistent(orders)
    {
      var i := IndexByKey(orders, IdKey(id));
      if i == |orders| {
        return NoSuchOrder;
      }
      orders := orders[i := orders[i].(status := status)];
      r := Found(orders[i]);
    }
  }
}
