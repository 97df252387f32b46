/** The report endpoints: product statistics grouped by product name, the
    daily summary, and the monthly and annual series. */
module Reports {
  import opened Seqs
  import opened Orders
  import opened Grouping

  // ---------------------------------------------------------------------------
  // Product statistics
  // ---------------------------------------------------------------------------

  /** A row of the product table. The running average price is not modelled. */
  datatype ProductStatsRow = ProductStatsRow(
    productName: string,
    ip: string,
    category: string,
    scale: string,
    quantity: int,
    revenue: int)

  function RowRevenue(r: ProductStatsRow): int { r.revenue }
  function RowQuantity(r: ProductStatsRow): int { r.quantity }

  function ProductName(item: OrderItem): string { item.productName }

  /** The row a group becomes: the identity fields come from its first item. */
  function StatsRow(g: Group): ProductStatsRow
  {
    ProductStatsRow(g.first.productName, g.first.ip, g.first.category, g.first.scale, g.quantity, g.revenue)
  }

  function StatsRows(gs: seq<Group>): (r: seq<ProductStatsRow>)
    ensures |r| == |gs|
    ensures forall m :: 0 <= m < |r| ==> r[m] == StatsRow(gs[m])
  {
    if gs == [] then [] else [StatsRow(gs[0])] + StatsRows(gs[1..])
  }

  /** The comparator `(a, b) => b.revenue - a.revenue`: a may stay in front of
      b when its revenue is not smaller. */
  function RevenueFirst(a: ProductStatsRow, b: ProductStatsRow): bool
  {
    a.revenue >= b.revenue
  }

  /** The product table of the daily report, as a function of the orders. */
  function ProductStats(orders: seq<Order>): seq<ProductStatsRow>
  {
    SortBy(StatsRows(Groups(AllItems(orders), ProductName)), RevenueFirst)
  }

  /** `map.get(name)` on the rows: the position of the row for name, or |rows|. */
  function IndexOfName(rows: seq<ProductStatsRow>, name: string): (i: nat)
    ensures i <= |rows|
    ensures i < |rows| ==> rows[i].productName == name
    ensures forall j :: 0 <= j < i ==> rows[j].productName != name
  {
    if rows == [] then 0 else if rows[0].productName == name then 0 else 1 + IndexOfName(rows[1..], name)
  }

  lemma {:induction false} IndexOfNameOfRows(gs: seq<Group>, name: string)
    requires forall m :: 0 <= m < |gs| ==> gs[m].key == gs[m].first.productName
    ensures IndexOfName(StatsRows(gs), name) == IndexOfKey(gs, name)
  {
    if gs != [] {
      assert StatsRows(gs)[1..] == StatsRows(gs[1..]);
      IndexOfNameOfRows(gs[1..], name);
    }
  }

  /** An existing row taking one more item into its sums. */
  function AbsorbRow(r: ProductStatsRow, item: OrderItem): ProductStatsRow
  {
    r.(quantity := r.quantity + item.quantity, revenue := r.revenue + item.subtotal)
  }

  /** The table after one more item: its row takes the item into its sums, or
      a new row is added at the end. */
  function NextStats(t: seq<ProductStatsRow>, item: OrderItem): seq<ProductStatsRow>
  {
    var k := IndexOfName(t, item.productName);
    if k < |t| then t[k := AbsorbRow(t[k], item)]
    else t + [ProductStatsRow(item.productName, item.ip, item.category, item.scale, item.quantity, item.subtotal)]
  }

  lemma NextStatsFound(t: seq<ProductStatsRow>, item: OrderItem, name: string)
    requires name == item.productName && IndexOfName(t, name) < |t|
    ensures var k := IndexOfName(t, name);
      && NextStats(t, item) == t[k := AbsorbRow(t[k], item)]
      && AbsorbRow(t[k], item) == t[k].(quantity := t[k].quantity + item.quantity, revenue := t[k].revenue + item.subtotal)
  {
  }

  lemma NextStatsMissing(t: seq<ProductStatsRow>, item: OrderItem, name: string)
    requires name == item.productName && IndexOfName(t, name) == |t|
    ensures NextStats(t, item) == t + [ProductStatsRow(item.productName, item.ip, item.category, item.scale, item.quantity, item.subtotal)]
  {
  }

  /** One pass of the inner loop on the rows is one AddItem on the groups. */
  lemma {:induction false} StatsStep(gs: seq<Group>, item: OrderItem, name: string)
    requires name == item.productName
    requires forall m :: 0 <= m < |gs| ==> gs[m].key == gs[m].first.productName
    ensures NextStats(StatsRows(gs), item) == StatsRows(AddItem(gs, item, ProductName))
  {
    IndexOfNameOfRows(gs, name);
    if IndexOfKey(gs, name) < |gs| {
      StatsStepFound(gs, item, name);
    } else {
      StatsStepMissing(gs, item, name);
    }
  }

  lemma StatsStepFound(gs: seq<Group>, item: OrderItem, name: string)
    requires name == item.productName && IndexOfKey(gs, name) < |gs|
    requires IndexOfName(StatsRows(gs), name) == IndexOfKey(gs, name)
    ensures NextStats(StatsRows(gs), item) == StatsRows(AddItem(gs, item, ProductName))
  {
    var k := IndexOfKey(gs, name);
    var t := StatsRows(gs);
    AddItemFound(gs, item, ProductName, name);
    StatsRowsUpdate(gs, k, Absorb(gs[k], item));
    NextStatsFound(t, item, name);
    assert AbsorbRow(t[k], item) == StatsRow(Absorb(gs[k], item));
  }

  lemma StatsStepMissing(gs: seq<Group>, item: OrderItem, name: string)
    requires name == item.productName && IndexOfKey(gs, name) == |gs|
    requires IndexOfName(StatsRows(gs), name) == IndexOfKey(gs, name)
    ensures NextStats(StatsRows(gs), item) == StatsRows(AddItem(gs, item, ProductName))
  {
    var g := Group(name, item, item.quantity, item.subtotal);
    AddItemMissing(gs, item, ProductName, name);
    StatsRowsSnoc(gs, g);
    NextStatsMissing(StatsRows(gs), item, name);
  }

  lemma StatsRowsUpdate(gs: seq<Group>, k: nat, g: Group)
    requires k < |gs|
    ensures StatsRows(gs[k := g]) == StatsRows(gs)[k := StatsRow(g)]
  {
  }

  lemma StatsRowsSnoc(gs: seq<Group>, g: Group)
    ensures StatsRows(gs + [g]) == StatsRows(gs) + [StatsRow(g)]
  {
  }

  /** r is the table of the items seen so far. */
  predicate Tabulates(r: seq<ProductStatsRow>, seen: seq<OrderItem>)
  {
    r == StatsRows(Groups(seen, ProductName))
  }

  lemma StatsLoopStep(seen: seq<OrderItem>, items: seq<OrderItem>, j: nat, before: seq<ProductStatsRow>, after: seq<ProductStatsRow>)
    requires j < |items|
    requires Tabulates(before, seen + items[..j])
    requires after == NextStats(before, items[j])
    ensures Tabulates(after, seen + items[..j + 1])
  {
    var acc := seen + items[..j];
    GroupsKeys(acc, ProductName);
    StatsStep(Groups(acc, ProductName), items[j], items[j].productName);
    GroupsSnoc(acc, items[j], ProductName);
    PrefixSnoc(seen, items, j);
  }

  /** `buildProductStatsFromOrders`: one pass over the orders, each handing
      its items to the table, then the sort by revenue. */
  method BuildProductStats(orders: seq<Order>) returns (rows: seq<ProductStatsRow>)
    ensures rows == ProductStats(orders)
  {
    var table: seq<ProductStatsRow> := [];
    for i := 0 to |orders|
      invariant Tabulates(table, AllItems(orders[..i]))
    {
      table := AddOrderItems(table, orders[i].items, AllItems(orders[..i]));
      AllItemsPrefix(orders, i);
    }
    assert orders[..|orders|] == orders;
    rows := SortBy(table, RevenueFirst);
  }

  /** The body of the inner loop: the item updates the row for its product
      name, or adds a row carrying the item's identity fields. */
  method Accumulate(t: seq<ProductStatsRow>, item: OrderItem) returns (r: seq<ProductStatsRow>)
    ensures r == NextStats(t, item)
  {
    var name := item.productName;
    var k := IndexOfName(t, name);
    if k < |t| {
      NextStatsFound(t, item, name);
      r := t[k := t[k].(quantity := t[k].quantity + item.quantity, revenue := t[k].revenue + item.subtotal)];
    } else {
      NextStatsMissing(t, item, name);
      r := t + [ProductStatsRow(item.productName, item.ip, item.category, item.scale, item.quantity, item.subtotal)];
    }
  }

  /** The inner loop over one order's items. */
  method AddOrderItems(table: seq<ProductStatsRow>, items: seq<OrderItem>, ghost seen: seq<OrderItem>)
    returns (r: seq<ProductStatsRow>)
    requires Tabulates(table, seen)
    ensures Tabulates(r, seen + items)
  {
    r := table;
    assert seen + items[..0] == seen;
    for j := 0 to |items|
      invariant Tabulates(r, seen + items[..j])
    {
      ghost var before := r;
      r := Accumulate(r, items[j]);
      StatsLoopStep(seen, items, j, before, r);
    }
    assert items[..|items|] == items;
  }

  lemma PrefixSnoc<T>(seen: seq<T>, items: seq<T>, j: nat)
    requires j < |items|
    ensures seen + items[..j + 1] == (seen + items[..j]) + [items[j]]
  {
    assert items[..j + 1] == items[..j] + [items[j]];
  }

  /** The rows are ordered by revenue, largest first. */
  lemma ProductStatsSorted(orders: seq<Order>)
    ensures forall i, j :: 0 <= i < j < |ProductStats(orders)| ==>
      ProductStats(orders)[i].revenue >= ProductStats(orders)[j].revenue
  {
    assert Connex(RevenueFirst) && Transitive(RevenueFirst);
    SortSorted(StatsRows(Groups(AllItems(orders), ProductName)), RevenueFirst);
  }

  function RowName(r: ProductStatsRow): string { r.productName }

  /** One row per product name. */
  lemma ProductStatsDistinct(orders: seq<Order>)
    ensures forall i, j :: 0 <= i < j < |ProductStats(orders)| ==>
      ProductStats(orders)[i].productName != ProductStats(orders)[j].productName
  {
    var gs := Groups(AllItems(orders), ProductName);
    GroupsKeys(AllItems(orders), ProductName);
    assert DistinctKeys(StatsRows(gs), RowName);
    SortKeepsDistinct(StatsRows(gs), RevenueFirst, RowName);
  }

  /** row accounts exactly for the items `its` (the items with its name): it
      carries the identity fields of the first of them and the sums of their
      quantities and subtotals. */
  predicate Describes(row: ProductStatsRow, its: seq<OrderItem>)
  {
    && |its| > 0
    && row.productName == its[0].productName
    && row.ip == its[0].ip && row.category == its[0].category && row.scale == its[0].scale
    && row.quantity == SumOf(its, QuantityOf)
    && row.revenue == SumOf(its, SubtotalOf)
  }

  /** Each row accounts for exactly the items of its product. */
  lemma ProductStatsRows(orders: seq<Order>)
    ensures forall i :: 0 <= i < |ProductStats(orders)| ==>
      Describes(ProductStats(orders)[i], WithKey(AllItems(orders), ProductName, ProductStats(orders)[i].productName))
  {
    var items := AllItems(orders);
    var gs := Groups(items, ProductName);
    var u := StatsRows(gs);
    var rows := ProductStats(orders);
    GroupsKeys(items, ProductName);
    GroupsSummarise(items, ProductName);
    SortMultiset(u, RevenueFirst);
    forall i | 0 <= i < |rows| ensures Describes(rows[i], WithKey(items, ProductName, rows[i].productName)) {
      assert rows[i] in multiset(u);
      var m := Position(rows[i], u);
      assert Summarises(gs[m], WithKey(items, ProductName, gs[m].key));
    }
  }

  /** Every product name that occurs in an item has a row. */
  lemma ProductStatsCoverNames(orders: seq<Order>)
    ensures forall j :: 0 <= j < |AllItems(orders)| ==>
      exists i :: 0 <= i < |ProductStats(orders)| && ProductStats(orders)[i].productName == AllItems(orders)[j].productName
  {
    var items := AllItems(orders);
    var gs := Groups(items, ProductName);
    var u := StatsRows(gs);
    var rows := ProductStats(orders);
    GroupsKeys(items, ProductName);
    SortMultiset(u, RevenueFirst);
    forall j | 0 <= j < |items| ensures exists i :: 0 <= i < |rows| && rows[i].productName == items[j].productName {
      var m := IndexOfKey(gs, items[j].productName);
      assert u[m].productName == items[j].productName;
      RowSurvivesSort(u, rows, m);
    }
  }

  /** A row of the unsorted table is still present after the sort. */
  lemma RowSurvivesSort(u: seq<ProductStatsRow>, rows: seq<ProductStatsRow>, m: nat)
    requires m < |u| && multiset(rows) == multiset(u)
    ensures exists i :: 0 <= i < |rows| && rows[i].productName == u[m].productName
  {
    assert u[m] in multiset(rows);
    var i := Position(u[m], rows);
    assert rows[i].productName == u[m].productName;
  }

  lemma {:induction false} StatsRowsSums(gs: seq<Group>)
    ensures SumOf(StatsRows(gs), RowRevenue) == SumOf(gs, GroupRevenue)
    ensures SumOf(StatsRows(gs), RowQuantity) == SumOf(gs, GroupQuantity)
  {
    if gs != [] {
      assert StatsRows(gs)[1..] == StatsRows(gs[1..]);
      StatsRowsSums(gs[1..]);
    }
  }

  /** The rows' revenues add up to all item subtotals and their quantities to
      all item quantities; on consistent orders the revenue is also the sum of
      the order totals. */
  lemma ProductStatsTotals(orders: seq<Order>)
    ensures SumOf(ProductStats(orders), RowRevenue) == SumOf(AllItems(orders), SubtotalOf)
    ensures SumOf(ProductStats(orders), RowQuantity) == SumOf(AllItems(orders), QuantityOf)
    ensures AllConsistent(orders) ==> SumOf(ProductStats(orders), RowRevenue) == SumOf(orders, TotalAmountOf)
  {
    var gs := Groups(AllItems(orders), ProductName);
    SortKeepsSum(StatsRows(gs), RevenueFirst, RowRevenue);
    SortKeepsSum(StatsRows(gs), RevenueFirst, RowQuantity);
    StatsRowsSums(gs);
    GroupsTotals(AllItems(orders), ProductName);
    if AllConsistent(orders) {
      TotalsMatchSubtotals(orders);
    }
  }

  // ---------------------------------------------------------------------------
  // Daily summary
  // ---------------------------------------------------------------------------

  datatype DailySummary = DailySummary(orderCount: int, revenue: int, avgOrderValue: real)

  /** `buildDailySummaryFromOrders`: the count, the revenue, and the mean order
      value, which is 0 for an empty collection rather than a division by zero. */
  function Summarise(orders: seq<Order>): (r: DailySummary)
    ensures r.orderCount == |orders|
    ensures r.revenue == SumOf(orders, TotalAmountOf)
    ensures r.orderCount == 0 ==> r.avgOrderValue == 0.0
    ensures r.orderCount > 0 ==> r.avgOrderValue * r.orderCount as real == r.revenue as real
  {
    var orderCount := |orders|;
    var revenue := SumOf(orders, TotalAmountOf);
    DailySummary(orderCount, revenue, if orderCount > 0 then revenue as real / orderCount as real else 0.0)
  }

  /** On consistent orders the summary's revenue equals the product table's. */
  lemma SummaryMatchesProductStats(orders: seq<Order>)
    requires AllConsistent(orders)
    ensures Summarise(orders).revenue == SumOf(ProductStats(orders), RowRevenue)
  {
    ProductStatsTotals(orders);
  }

  // ---------------------------------------------------------------------------
  // Calendar
  // ---------------------------------------------------------------------------

  predicate IsLeapYear(y: int)
  {
    y % 4 == 0 && (y % 100 != 0 || y % 400 == 0)
  }

  /** Length of month m (1..12) of year y in the proleptic Gregorian calendar. */
  function DaysInMonth(y: int, m: int): (n: int)
    requires 1 <= m <= 12
    ensures 28 <= n <= 31
    ensures n == 29 <==> (m == 2 && IsLeapYear(y))
    ensures n == 31 <==> m in {1, 3, 5, 7, 8, 10, 12}
    ensures n == 30 <==> m in {4, 6, 9, 11}
  {
    if m == 2 then (if IsLeapYear(y) then 29 else 28)
    else if m == 4 || m == 6 || m == 9 || m == 11 then 30
    else 31
  }

  /** `new Date(year, month, 0).getDate()` for integer year and month: day 0 of
      0-based month `month` is the last day of 1-based month `month`; a month
      outside 1..12 carries into the year, and years 0..99 mean 1900..1999. */
  function MonthLength(year: int, month: int): (n: int)
    ensures 28 <= n <= 31
  {
    var y := if 0 <= year <= 99 then 1900 + year else year;
    DaysInMonth(y + (month - 1) / 12, (month - 1) % 12 + 1)
  }

  /** For months 1..12 of a four-digit year the length is the Gregorian one. */
  lemma MonthLengthIsGregorian(year: int, month: int)
    requires year >= 100 && 1 <= month <= 12
    ensures MonthLength(year, month) == DaysInMonth(year, month)
  {
  }

  /** Thirteen months from now is one month into next year. */
  lemma MonthLengthCarries(year: int, month: int)
    requires year >= 100
    ensures MonthLength(year, month + 12) == MonthLength(year + 1, month)
  {
    assert (month + 12 - 1) / 12 == (month - 1) / 12 + 1;
    assert (month + 12 - 1) % 12 == (month - 1) % 12;
  }

  // ---------------------------------------------------------------------------
  // Monthly and annual series
  // ---------------------------------------------------------------------------

  function Value(v: int): int { v }

  /** `xs.reduce((s, v) => s + v, 0)`. */
  function Total(xs: seq<int>): int { SumOf(xs, Value) }

  /** A sum of draws from lo..hi lies between |xs| * lo and |xs| * hi. */
  lemma {:induction false} TotalBounds(xs: seq<int>, lo: int, hi: int)
    requires forall i :: 0 <= i < |xs| ==> lo <= xs[i] <= hi
    ensures |xs| * lo <= Total(xs) <= |xs| * hi
  {
    if xs != [] {
      TotalBounds(xs[1..], lo, hi);
      assert |xs| * lo == lo + (|xs| - 1) * lo;
      assert |xs| * hi == hi + (|xs| - 1) * hi;
    }
  }

  datatype MonthlyReport = MonthlyReport(
    orderCount: int,
    revenue: int,
    avgDailyRevenue: real,
    days: seq<int>,
    orders: seq<int>,
    revenues: seq<int>)

  /** The monthly report: one entry per day of the month, holding the draws of
      the random source, and the totals over them. */
  method BuildMonthly(year: int, month: int, orderDraws: seq<int>, revenueDraws: seq<int>) returns (r: MonthlyReport)
    requires |orderDraws| == MonthLength(year, month) && |revenueDraws| == MonthLength(year, month)
    ensures |r.days| == MonthLength(year, month)
    ensures forall d :: 0 <= d < |r.days| ==> r.days[d] == d + 1
    ensures r.orders == orderDraws && r.revenues == revenueDraws
    ensures r.orderCount == Total(orderDraws) && r.revenue == Total(revenueDraws)
    ensures r.avgDailyRevenue * |r.days| as real == r.revenue as real
  {
    var daysInMonth := MonthLength(year, month);
    var days: seq<int> := [];
    var orders: seq<int> := [];
    var revenues: seq<int> := [];
    for d := 1 to daysInMonth + 1
      invariant |days| == d - 1 && forall k :: 0 <= k < |days| ==> days[k] == k + 1
      invariant orders == orderDraws[..d - 1] && revenues == revenueDraws[..d - 1]
    {
      days := days + [d];
      orders := orders + [orderDraws[d - 1]];
      revenues := revenues + [revenueDraws[d - 1]];
    }
    assert orderDraws[..daysInMonth] == orderDraws && revenueDraws[..daysInMonth] == revenueDraws;
    var totalOrders := Total(orders);
    var totalRevenue := Total(revenues);
    r := MonthlyReport(totalOrders, totalRevenue, totalRevenue as real / daysInMonth as real, days, orders, revenues);
  }

  /** With the source's ranges (5..100 orders and 2000..50000 revenue per day)
      the totals and the daily mean stay within the corresponding bounds. */
  lemma MonthlyBounds(orderDraws: seq<int>, revenueDraws: seq<int>, avg: real)
    requires |orderDraws| == |revenueDraws| > 0
    requires forall i :: 0 <= i < |orderDraws| ==> 5 <= orderDraws[i] <= 100
    requires forall i :: 0 <= i < |revenueDraws| ==> 2000 <= revenueDraws[i] <= 50000
    requires avg * |revenueDraws| as real == Total(revenueDraws) as real
    ensures 5 * |orderDraws| <= Total(orderDraws) <= 100 * |orderDraws|
    ensures 2000.0 <= avg <= 50000.0
  {
    TotalBounds(orderDraws, 5, 100);
    TotalBounds(revenueDraws, 2000, 50000);
    var n := |revenueDraws| as real;
    assert (|revenueDraws| * 2000) as real == n * 2000.0;
    assert (|revenueDraws| * 50000) as real == n * 50000.0;

  }

  datatype AnnualReport = AnnualReport(
    orderCount: int,
    revenue: int,
    avgMonthlyRevenue: real,
    months: seq<int>,
    orders: seq<int>,
    revenues: seq<int>)

  /** The annual report: one entry per month 1..12, holding the draws of the
      random source, and the totals over them. */
  method BuildAnnual(orderDraws: seq<int>, revenueDraws: seq<int>) returns (r: AnnualReport)
    requires |orderDraws| == 12 && |revenueDraws| == 12
    ensures r.months == [1, 2, 3, 4, 5, 6, 7, 8, 9, 10, 11, 12]
    ensures r.orders == orderDraws && r.revenues == revenueDraws
    ensures r.orderCount == Total(orderDraws) && r.revenue == Total(revenueDraws)
    ensures r.avgMonthlyRevenue * 12.0 == r.revenue as real
  {
    var months: seq<int> := [];
    var orders: seq<int> := [];
    var revenues: seq<int> := [];
    for m := 1 to 13
      invariant |months| == m - 1 && forall k :: 0 <= k < |months| ==> months[k] == k + 1
      invariant orders == orderDraws[..m - 1] && revenues == revenueDraws[..m - 1]
    {
      months := months + [m];
      orders := orders + [orderDraws[m - 1]];
      revenues := revenues + [revenueDraws[m - 1]];
    }
    assert orderDraws[..12] == orderDraws && revenueDraws[..12] == revenueDraws;
    var totalOrders := Total(orders);
    var totalRevenue := Total(revenues);
    r := AnnualReport(totalOrders, totalRevenue, totalRevenue as real / 12.0, months, orders, revenues);
  }
}
