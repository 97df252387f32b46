/** The home dashboard: overall totals, revenue over the last seven days,
    revenue per IP, and the table of the most recent order lines. */
module Dashboard {
  import opened Seqs
  import opened Text
  import opened Orders
  import opened Grouping
  import Reports

  // ---------------------------------------------------------------------------
  // Totals
  // ---------------------------------------------------------------------------

  datatype Totals = Totals(totalRevenue: int, totalQuantity: int, totalOrders: int)

  /** `o.items.reduce((s, item) => s + item.quantity, 0)`. */
  function OrderQuantity(o: Order): int
  {
    SumOf(o.items, QuantityOf)
  }

  lemma {:induction false} NestedQuantitySum(orders: seq<Order>)
    ensures SumOf(orders, OrderQuantity) == SumOf(AllItems(orders), QuantityOf)
  {
    if orders != [] {
      NestedQuantitySum(orders[1..]);
      SumOfAppend(orders[0].items, AllItems(orders[1..]), QuantityOf);
    }
  }

  /** `buildDashboardTotalsFromOrders`: the revenue is the sum of the order
      totals, the quantity the number of pieces over all order lines, and the
      order count the length of the collection. */
  function DashboardTotals(orders: seq<Order>): (r: Totals)
    ensures r.totalRevenue == Reports.Summarise(orders).revenue
    ensures r.totalQuantity == SumOf(AllItems(orders), QuantityOf)
    ensures r.totalOrders == |orders|
  {
    NestedQuantitySum(orders);
    Totals(SumOf(orders, TotalAmountOf), SumOf(orders, OrderQuantity), |orders|)
  }

  // ---------------------------------------------------------------------------
  // Seven-day trend
  // ---------------------------------------------------------------------------

  /** One entry of the trend map: a day key "YYYY-MM-DD" and its revenue. */
  datatype DayTotal = DayTotal(day: string, amount: int)

  function DayOf(t: DayTotal): string { t.day }

  function OnDay(k: string): Order -> bool
  {
    o => Day(o) == k
  }

  /** The revenue of the orders placed on day k. */
  function DayRevenue(orders: seq<Order>, k: string): int
  {
    SumOf(Filter(orders, OnDay(k)), TotalAmountOf)
  }

  /** The filled map, in the order its keys were set. */
  function DayTotals(orders: seq<Order>, keys: seq<string>): (r: seq<DayTotal>)
    ensures |r| == |keys|
    ensures forall m :: 0 <= m < |r| ==> r[m] == DayTotal(keys[m], DayRevenue(orders, keys[m]))
  {
    if keys == [] then [] else [DayTotal(keys[0], DayRevenue(orders, keys[0]))] + DayTotals(orders, keys[1..])
  }

  /** The comparator `(d1 > d2 ? 1 : -1)`: a may stay in front of b unless its day is later. */
  function EarlierDay(a: DayTotal, b: DayTotal): bool
  {
    !Less(b.day, a.day)
  }

  /** The map's entries sorted by day. */
  function TrendTable(orders: seq<Order>, keys: seq<string>): (r: seq<DayTotal>)
    ensures multiset(r) == multiset(DayTotals(orders, keys))
    ensures |r| == |keys|
  {
    SortMultiset(DayTotals(orders, keys), EarlierDay);
    SortBy(DayTotals(orders, keys), EarlierDay)
  }

  /** `d.slice(5)`: "MM-DD" of a "YYYY-MM-DD" key. */
  function Label(day: string): string
  {
    Slice(day, 5, |day|)
  }

  predicate Distinct(keys: seq<string>)
  {
    forall i, j :: 0 <= i < j < |keys| ==> keys[i] != keys[j]
  }

  /** The keys of a `Map` after `map.set(key, 0)` for each key in turn: a
      repeated key keeps the place of its first setting. */
  function Dedup(keys: seq<string>): (r: seq<string>)
    ensures |r| <= |keys|
    ensures Distinct(r)
    ensures forall k :: k in r <==> k in keys
    ensures Distinct(keys) <==> r == keys
    ensures |r| == |keys| <==> Distinct(keys)
    ensures IsSubsequence(r, keys)
  {
    if keys == [] then []
    else
      var init := keys[..|keys| - 1];
      var k := keys[|keys| - 1];
      var d := Dedup(init);
      assert keys == init + [k];
      assert forall x :: x in keys <==> x in init || x == k;
      SubsequenceSnoc(d, init, k);
      if k in d then
        assert !Distinct(keys) by {
          var j :| 0 <= j < |init| && init[j] == k;
          assert keys[j] == keys[|keys| - 1];
        }
        d
      else
        assert Distinct(keys) <==> Distinct(init) by {
          if Distinct(init) {
            forall i, j | 0 <= i < j < |keys| ensures keys[i] != keys[j] {
              if j == |keys| - 1 {
                assert keys[i] in init;
              } else {
                assert init[i] != init[j];
              }
            }
          }
          if Distinct(keys) {
            forall i, j | 0 <= i < j < |init| ensures init[i] != init[j] {
              assert keys[i] != keys[j];
            }
          }
        }
        SubsequenceAppend(d, init, k);
        d + [k]
  }

  datatype TrendData = TrendData(dates: seq<string>, values: seq<int>)

  /** t holds, for each key in order, the revenue of the orders seen so far on that day. */
  predicate Buckets(t: seq<DayTotal>, seen: seq<Order>, keys: seq<string>)
  {
    |t| == |keys| && forall m :: 0 <= m < |t| ==> t[m] == DayTotal(keys[m], DayRevenue(seen, keys[m]))
  }

  /** The revenue of a day grows by an order's total exactly when the order is on that day. */
  lemma DayRevenueSnoc(seen: seq<Order>, o: Order, k: string)
    ensures DayRevenue(seen + [o], k) == DayRevenue(seen, k) + (if Day(o) == k then o.totalAmount else 0)
  {
    FilterSnoc(seen, o, OnDay(k));
    SumOfAppend(Filter(seen, OnDay(k)), if Day(o) == k then [o] else [], TotalAmountOf);
  }

  lemma BucketsStep(t: seq<DayTotal>, orders: seq<Order>, i: nat, keys: seq<string>, day: string, after: seq<DayTotal>)
    requires i < |orders| && day == Day(orders[i])
    requires Distinct(keys) && Buckets(t, orders[..i], keys)
    requires var idx := FirstIndex(t, DayOf, day);
      after == if idx < |t| then t[idx := DayTotal(day, t[idx].amount + orders[i].totalAmount)] else t
    ensures Buckets(after, orders[..i + 1], keys)
  {
    var o := orders[i];
    assert orders[..i + 1] == orders[..i] + [o];
    var idx := FirstIndex(t, DayOf, day);
    forall m | 0 <= m < |after| ensures after[m] == DayTotal(keys[m], DayRevenue(orders[..i + 1], keys[m])) {
      DayRevenueSnoc(orders[..i], o, keys[m]);
      if m != idx && idx < |t| {
        assert keys[m] != keys[idx];
      }
    }
  }

  /** One more key: it joins the distinct keys unless it is already there. */
  lemma DedupSnoc(keys: seq<string>, m: nat)
    requires m < |keys|
    ensures Dedup(keys[..m + 1]) == if keys[m] in Dedup(keys[..m]) then Dedup(keys[..m]) else Dedup(keys[..m]) + [keys[m]]
  {
    assert keys[..m + 1][..m] == keys[..m];
  }

  /** `map.set(k, 0)` on the zero entries of the keys d. */
  lemma ZeroStep(table: seq<DayTotal>, d: seq<string>, k: string, after: seq<DayTotal>)
    requires Buckets(table, [], d)
    requires var idx := FirstIndex(table, DayOf, k);
      after == if idx < |table| then table[idx := DayTotal(k, 0)] else table + [DayTotal(k, 0)]
    ensures Buckets(after, [], if k in d then d else d + [k])
  {
    var idx := FirstIndex(table, DayOf, k);
    if idx < |table| {
      assert d[idx] == table[idx].day;
    } else {
      forall n | 0 <= n < |d| ensures d[n] != k {
        assert table[n].day == d[n];
      }
      assert DayRevenue([], k) == 0;
    }
  }

  /** `map.set(key, 0)` for each key in turn: a new key adds a zero entry at
      the end, a repeated one sets its entry to 0 again where it stands. */
  method ZeroDays(keys: seq<string>) returns (table: seq<DayTotal>)
    ensures Buckets(table, [], Dedup(keys))
  {
    table := [];
    for m := 0 to |keys|
      invariant Buckets(table, [], Dedup(keys[..m]))
    {
      ghost var before := table;
      var idx := FirstIndex(table, DayOf, keys[m]);
      if idx < |table| {
        table := table[idx := DayTotal(keys[m], 0)];
      } else {
        table := table + [DayTotal(keys[m], 0)];
      }
      ZeroStep(before, Dedup(keys[..m]), keys[m], table);
      DedupSnoc(keys, m);
    }
    assert keys[..|keys|] == keys;
  }

  /** The pass over the orders: each total goes to the entry of its day, if any. */
  method AddDayTotals(zero: seq<DayTotal>, orders: seq<Order>, keys: seq<string>) returns (table: seq<DayTotal>)
    requires Distinct(keys) && Buckets(zero, [], keys)
    ensures Buckets(table, orders, keys)
  {
    table := zero;
    assert orders[..0] == [];
    for i := 0 to |orders|
      invariant Buckets(table, orders[..i], keys)
    {
      ghost var before := table;
      var day := Day(orders[i]);
      var idx := FirstIndex(table, DayOf, day);
      if idx < |table| {
        table := table[idx := DayTotal(day, table[idx].amount + orders[i].totalAmount)];
      }
      BucketsStep(before, orders, i, keys, day, table);
    }
    assert orders[..|orders|] == orders;
  }

  /** `buildDashboardTrendDataFromOrders`, the day keys of the last week given:
      a zero entry per distinct key, the order totals added to the entry of
      their day, then the entries sorted by day and split into labels and
      values. Seven distinct keys give seven entries; a repeated key gives one
      entry fewer. */
  method BuildTrend(orders: seq<Order>, keys: seq<string>) returns (r: TrendData)
    ensures |r.dates| == |r.values| == |TrendTable(orders, Dedup(keys))| <= |keys|
    ensures |r.dates| == |keys| <==> Distinct(keys)
    ensures forall m :: 0 <= m < |r.dates| ==>
      r.dates[m] == Label(TrendTable(orders, Dedup(keys))[m].day) && r.values[m] == TrendTable(orders, Dedup(keys))[m].amount
  {
    var d := Dedup(keys);
    var zero := ZeroDays(keys);
    var table := AddDayTotals(zero, orders, d);
    assert table == DayTotals(orders, d);
    var sorted := SortBy(table, EarlierDay);
    var dates: seq<string> := [];
    var values: seq<int> := [];
    for m := 0 to |sorted|
      invariant |dates| == m && |values| == m
      invariant forall n :: 0 <= n < m ==> dates[n] == Label(sorted[n].day) && values[n] == sorted[n].amount
    {
      dates := dates + [Label(sorted[m].day)];
      values := values + [sorted[m].amount];
    }
    r := TrendData(dates, values);
  }

  lemma EarlierDayOrders()
    ensures Connex(EarlierDay) && Transitive(EarlierDay)
  {
    forall a: DayTotal, b: DayTotal ensures EarlierDay(a, b) || EarlierDay(b, a) {
      LessTrichotomy(a.day, b.day);
    }
    forall a: DayTotal, b: DayTotal, c: DayTotal | EarlierDay(a, b) && EarlierDay(b, c) ensures EarlierDay(a, c) {
      AtMostTransitive(a.day, b.day, c.day);
    }
  }

  /** With distinct keys the trend runs in strictly ascending day order. */
  lemma TrendAscending(orders: seq<Order>, keys: seq<string>)
    requires Distinct(keys)
    ensures forall i, j :: 0 <= i < j < |TrendTable(orders, keys)| ==>
      Less(TrendTable(orders, keys)[i].day, TrendTable(orders, keys)[j].day)
  {
    var u := DayTotals(orders, keys);
    var t := TrendTable(orders, keys);
    EarlierDayOrders();
    SortSorted(u, EarlierDay);
    assert DistinctKeys(u, DayOf);
    SortKeepsDistinct(u, EarlierDay, DayOf);
    forall i, j | 0 <= i < j < |t| ensures Less(t[i].day, t[j].day) {
      assert EarlierDay(t[i], t[j]) && DayOf(t[i]) != DayOf(t[j]);
      LessTrichotomy(t[i].day, t[j].day);
    }
  }

  /** The trend has one entry per key, and each entry's value is the revenue of
      the orders placed on its day. */
  lemma TrendEntries(orders: seq<Order>, keys: seq<string>)
    ensures |TrendTable(orders, keys)| == |keys|
    ensures forall i :: 0 <= i < |TrendTable(orders, keys)| ==>
      TrendTable(orders, keys)[i].day in keys
      && TrendTable(orders, keys)[i].amount == DayRevenue(orders, TrendTable(orders, keys)[i].day)
    ensures forall m :: 0 <= m < |keys| ==> exists i :: 0 <= i < |TrendTable(orders, keys)| && TrendTable(orders, keys)[i].day == keys[m]
  {
    var u := DayTotals(orders, keys);
    var t := TrendTable(orders, keys);
    SortMultiset(u, EarlierDay);
    forall i | 0 <= i < |t| ensures t[i].day in keys && t[i].amount == DayRevenue(orders, t[i].day) {
      assert t[i] in multiset(u);
      var m := Position(t[i], u);
    }
    forall m | 0 <= m < |keys| ensures exists i :: 0 <= i < |t| && t[i].day == keys[m] {
      assert u[m] in multiset(t);
      var i := Position(u[m], t);
    }
  }

  /** Orders on days outside the seven keys contribute nothing to the trend. */
  lemma TrendIgnoresOtherDays(orders: seq<Order>, others: seq<Order>, keys: seq<string>)
    requires forall j :: 0 <= j < |others| ==> Day(others[j]) !in keys
    ensures TrendTable(orders + others, keys) == TrendTable(orders, keys)
  {
    forall m | 0 <= m < |keys| ensures DayRevenue(orders + others, keys[m]) == DayRevenue(orders, keys[m]) {
      FilterAppend(orders, others, OnDay(keys[m]));
      FilterNone(others, OnDay(keys[m]));
      assert Filter(orders, OnDay(keys[m])) + [] == Filter(orders, OnDay(keys[m]));
    }
    assert DayTotals(orders + others, keys) == DayTotals(orders, keys);
  }

  /** For the keys as the clock gives them, repeats included: the trend runs
      in strictly ascending day order, has an entry for every key and no
      other, and each value is the revenue of its day. */
  lemma TrendOfKeys(orders: seq<Order>, keys: seq<string>)
    ensures var t := TrendTable(orders, Dedup(keys));
      && (forall i, j :: 0 <= i < j < |t| ==> Less(t[i].day, t[j].day))
      && (forall i :: 0 <= i < |t| ==> t[i].day in keys && t[i].amount == DayRevenue(orders, t[i].day))
      && (forall k :: k in keys ==> exists i :: 0 <= i < |t| && t[i].day == k)
  {
    var d := Dedup(keys);
    TrendAscending(orders, d);
    TrendEntries(orders, d);
    var t := TrendTable(orders, d);
    forall k | k in keys ensures exists i :: 0 <= i < |t| && t[i].day == k {
      var m := Position(k, d);
      assert exists i :: 0 <= i < |t| && t[i].day == d[m];
    }
  }

  // ---------------------------------------------------------------------------
  // Revenue by IP
  // ---------------------------------------------------------------------------

  datatype IpRevenue = IpRevenue(name: string, value: int)

  function IpName(e: IpRevenue): string { e.name }
  function IpValue(e: IpRevenue): int { e.value }

  /** `item.ip || '未知IP'`: an empty IP is reported as unknown. */
  function IpOf(item: OrderItem): (r: string)
    ensures r != ""
  {
    if item.ip == "" then "未知IP" else item.ip
  }

  function IpEntries(gs: seq<Group>): (r: seq<IpRevenue>)
    ensures |r| == |gs|
    ensures forall m :: 0 <= m < |r| ==> r[m] == IpRevenue(gs[m].key, gs[m].revenue)
  {
    if gs == [] then [] else [IpRevenue(gs[0].key, gs[0].revenue)] + IpEntries(gs[1..])
  }

  /** The comparator `(a, b) => b.value - a.value`. */
  function MoreRevenue(a: IpRevenue, b: IpRevenue): bool
  {
    a.value >= b.value
  }

  /** `buildRevenueByIpFromOrders` as a function of the orders. */
  function RevenueByIp(orders: seq<Order>): seq<IpRevenue>
  {
    SortBy(IpEntries(Groups(AllItems(orders), IpOf)), MoreRevenue)
  }

  function NameOf(e: IpRevenue): string { e.name }

  lemma {:induction false} IndexOfIpOfEntries(gs: seq<Group>, name: string)
    ensures FirstIndex(IpEntries(gs), NameOf, name) == IndexOfKey(gs, name)
  {
    if gs != [] {
      assert IpEntries(gs)[1..] == IpEntries(gs[1..]);
      IndexOfIpOfEntries(gs[1..], name);
    }
  }

  /** `map.set(ip, (map.get(ip) || 0) + revenue)`: an existing entry keeps its
      place and grows; a new one goes at the end. */
  function NextIp(t: seq<IpRevenue>, ip: string, revenue: int): seq<IpRevenue>
  {
    var k := FirstIndex(t, NameOf, ip);
    if k < |t| then t[k := IpRevenue(ip, t[k].value + revenue)] else t + [IpRevenue(ip, revenue)]
  }

  predicate IpTabulates(t: seq<IpRevenue>, seen: seq<OrderItem>)
  {
    t == IpEntries(Groups(seen, IpOf))
  }

  lemma NextIpFound(t: seq<IpRevenue>, ip: string, revenue: int)
    requires FirstIndex(t, NameOf, ip) < |t|
    ensures var k := FirstIndex(t, NameOf, ip);
      NextIp(t, ip, revenue) == t[k := IpRevenue(ip, t[k].value + revenue)]
  {
  }

  lemma NextIpMissing(t: seq<IpRevenue>, ip: string, revenue: int)
    requires FirstIndex(t, NameOf, ip) == |t|
    ensures NextIp(t, ip, revenue) == t + [IpRevenue(ip, revenue)]
  {
  }

  lemma IpEntriesUpdate(gs: seq<Group>, k: nat, g: Group)
    requires k < |gs|
    ensures IpEntries(gs[k := g]) == IpEntries(gs)[k := IpRevenue(g.key, g.revenue)]
  {
  }

  lemma IpEntriesSnoc(gs: seq<Group>, g: Group)
    ensures IpEntries(gs + [g]) == IpEntries(gs) + [IpRevenue(g.key, g.revenue)]
  {
  }

  /** One pass of the inner loop on the entries is one AddItem on the groups. */
  lemma IpStep(gs: seq<Group>, item: OrderItem, ip: string)
    requires ip == IpOf(item)
    ensures NextIp(IpEntries(gs), ip, item.subtotal) == IpEntries(AddItem(gs, item, IpOf))
  {
    var t := IpEntries(gs);
    IndexOfIpOfEntries(gs, ip);
    var k := IndexOfKey(gs, ip);
    if k < |gs| {
      var g := Absorb(gs[k], item);
      assert AddItem(gs, item, IpOf) == gs[k := g];
      IpEntriesUpdate(gs, k, g);
      NextIpFound(t, ip, item.subtotal);
    } else {
      var g := Group(ip, item, item.quantity, item.subtotal);
      assert AddItem(gs, item, IpOf) == gs + [g];
      IpEntriesSnoc(gs, g);
      NextIpMissing(t, ip, item.subtotal);
    }
  }

  lemma IpLoopStep(seen: seq<OrderItem>, items: seq<OrderItem>, j: nat, ip: string, before: seq<IpRevenue>, after: seq<IpRevenue>)
    requires j < |items| && ip == IpOf(items[j])
    requires IpTabulates(before, seen + items[..j])
    requires after == NextIp(before, ip, items[j].subtotal)
    ensures IpTabulates(after, seen + items[..j + 1])
  {
    var acc := seen + items[..j];
    IpStep(Groups(acc, IpOf), items[j], ip);
    GroupsSnoc(acc, items[j], IpOf);
    Reports.PrefixSnoc(seen, items, j);
  }

  /** The body of the inner loop: `item.ip || '未知IP'`, then
      `map.set(ip, (map.get(ip) || 0) + revenue)`. */
  method AccumulateIp(t: seq<IpRevenue>, item: OrderItem) returns (r: seq<IpRevenue>)
    ensures r == NextIp(t, IpOf(item), item.subtotal)
  {
    var ip := if item.ip == "" then "未知IP" else item.ip;
    var revenue := item.subtotal;
    var k := FirstIndex(t, NameOf, ip);
    if k < |t| {
      NextIpFound(t, ip, revenue);
      r := t[k := IpRevenue(ip, t[k].value + revenue)];
    } else {
      NextIpMissing(t, ip, revenue);
      r := t + [IpRevenue(ip, revenue)];
    }
  }

  /** The inner loop over one order's items. */
  method AddIpRevenues(table: seq<IpRevenue>, items: seq<OrderItem>, ghost seen: seq<OrderItem>)
    returns (r: seq<IpRevenue>)
    requires IpTabulates(table, seen)
    ensures IpTabulates(r, seen + items)
  {
    r := table;
    assert seen + items[..0] == seen;
    for j := 0 to |items|
      invariant IpTabulates(r, seen + items[..j])
    {
      ghost var before := r;
      r := AccumulateIp(r, items[j]);
      IpLoopStep(seen, items, j, IpOf(items[j]), before, r);
    }
    assert items[..|items|] == items;
  }

  /** `buildRevenueByIpFromOrders`: one pass over every item, then the sort by value. */
  method BuildRevenueByIp(orders: seq<Order>) returns (r: seq<IpRevenue>)
    ensures r == RevenueByIp(orders)
  {
    var table: seq<IpRevenue> := [];
    for i := 0 to |orders|
      invariant IpTabulates(table, AllItems(orders[..i]))
    {
      table := AddIpRevenues(table, orders[i].items, AllItems(orders[..i]));
      AllItemsPrefix(orders, i);
    }
    assert orders[..|orders|] == orders;
    r := SortBy(table, MoreRevenue);
  }

  /** Entries are ordered by value, largest first, with no name twice and no
      empty name. */
  lemma RevenueByIpShape(orders: seq<Order>)
    ensures forall i, j :: 0 <= i < j < |RevenueByIp(orders)| ==> RevenueByIp(orders)[i].value >= RevenueByIp(orders)[j].value
    ensures forall i, j :: 0 <= i < j < |RevenueByIp(orders)| ==> RevenueByIp(orders)[i].name != RevenueByIp(orders)[j].name
    ensures forall i :: 0 <= i < |RevenueByIp(orders)| ==> RevenueByIp(orders)[i].name != ""
  {
    var items := AllItems(orders);
    var gs := Groups(items, IpOf);
    var u := IpEntries(gs);
    var r := RevenueByIp(orders);
    assert Connex(MoreRevenue) && Transitive(MoreRevenue);
    SortSorted(u, MoreRevenue);
    GroupsKeys(items, IpOf);
    assert DistinctKeys(u, IpName);
    SortKeepsDistinct(u, MoreRevenue, IpName);
    SortMultiset(u, MoreRevenue);
    forall i | 0 <= i < |r| ensures r[i].name != "" {
      assert r[i] in multiset(u);
      var m := Position(r[i], u);
      assert gs[m].key == IpOf(gs[m].first);
    }
  }

  /** Each entry's value is the revenue of exactly the items with that IP,
      the unknown bucket collecting those with an empty one. */
  lemma RevenueByIpEntries(orders: seq<Order>)
    ensures forall i :: 0 <= i < |RevenueByIp(orders)| ==>
      RevenueByIp(orders)[i].value == SumOf(WithKey(AllItems(orders), IpOf, RevenueByIp(orders)[i].name), SubtotalOf)
  {
    var items := AllItems(orders);
    var gs := Groups(items, IpOf);
    var u := IpEntries(gs);
    var r := RevenueByIp(orders);
    GroupsSummarise(items, IpOf);
    SortMultiset(u, MoreRevenue);
    forall i | 0 <= i < |r| ensures r[i].value == SumOf(WithKey(items, IpOf, r[i].name), SubtotalOf) {
      assert r[i] in multiset(u);
      var m := Position(r[i], u);
      assert Summarises(gs[m], WithKey(items, IpOf, gs[m].key));
    }
  }

  /** Every item's IP, or the unknown bucket for an empty one, has an entry. */
  lemma RevenueByIpCoversItems(orders: seq<Order>)
    ensures forall j :: 0 <= j < |AllItems(orders)| ==>
      exists i :: 0 <= i < |RevenueByIp(orders)| && RevenueByIp(orders)[i].name == IpOf(AllItems(orders)[j])
  {
    var items := AllItems(orders);
    var gs := Groups(items, IpOf);
    var u := IpEntries(gs);
    var r := RevenueByIp(orders);
    GroupsKeys(items, IpOf);
    SortMultiset(u, MoreRevenue);
    forall j | 0 <= j < |items| ensures exists i :: 0 <= i < |r| && r[i].name == IpOf(items[j]) {
      var m := IndexOfKey(gs, IpOf(items[j]));
      assert u[m].name == IpOf(items[j]);
      EntrySurvivesSort(u, r, m);
    }
  }

  /** An entry of the table before the sort is still present after it. */
  lemma EntrySurvivesSort(u: seq<IpRevenue>, r: seq<IpRevenue>, m: nat)
    requires m < |u| && multiset(r) == multiset(u)
    ensures exists i :: 0 <= i < |r| && r[i].name == u[m].name
  {
    assert u[m] in multiset(r);
    var i := Position(u[m], r);
    assert r[i].name == u[m].name;
  }

  lemma {:induction false} IpEntriesSum(gs: seq<Group>)
    ensures SumOf(IpEntries(gs), IpValue) == SumOf(gs, GroupRevenue)
  {
    if gs != [] {
      assert IpEntries(gs)[1..] == IpEntries(gs[1..]);
      IpEntriesSum(gs[1..]);
    }
  }

  /** The values add up to the revenue of all order lines. */
  lemma RevenueByIpTotal(orders: seq<Order>)
    ensures SumOf(RevenueByIp(orders), IpValue) == SumOf(AllItems(orders), SubtotalOf)
  {
    var gs := Groups(AllItems(orders), IpOf);
    SortKeepsSum(IpEntries(gs), MoreRevenue, IpValue);
    IpEntriesSum(gs);
    GroupsTotals(AllItems(orders), IpOf);
  }

  /** On consistent orders the dashboard's revenue, the IP breakdown and the
      product table all account for the same money. */
  lemma RevenueIsConserved(orders: seq<Order>)
    requires AllConsistent(orders)
    ensures DashboardTotals(orders).totalRevenue == SumOf(RevenueByIp(orders), IpValue)
    ensures DashboardTotals(orders).totalRevenue == SumOf(Reports.ProductStats(orders), Reports.RowRevenue)
  {
    TotalsMatchSubtotals(orders);
    RevenueByIpTotal(orders);
    Reports.ProductStatsTotals(orders);
  }

  // ---------------------------------------------------------------------------
  // Order lines table
  // ---------------------------------------------------------------------------

  datatype OrderRow = OrderRow(
    date: string,
    productName: string,
    ip: string,
    category: string,
    scale: string,
    quantity: int,
    revenue: int)

  /** The row pushed for an item of an order placed on date. */
  function RowOf(date: string, item: OrderItem): OrderRow
  {
    OrderRow(date, item.productName, item.ip, item.category, item.scale, item.quantity, item.subtotal)
  }

  function RowsOf(date: string, items: seq<OrderItem>): (r: seq<OrderRow>)
    ensures |r| == |items|
    ensures forall k :: 0 <= k < |r| ==> r[k] == RowOf(date, items[k])
  {
    if items == [] then [] else [RowOf(date, items[0])] + RowsOf(date, items[1..])
  }

  /** Every order line as a row, order by order. */
  function AllRows(orders: seq<Order>): seq<OrderRow>
  {
    if orders == [] then [] else RowsOf(Day(orders[0]), orders[0].items) + AllRows(orders[1..])
  }

  /** The comparator `(a.date < b.date ? 1 : -1)`: a may stay in front of b
      unless its date is earlier. */
  function LaterFirst(a: OrderRow, b: OrderRow): bool
  {
    !Less(a.date, b.date)
  }

  /** The first 50 rows, latest date first. */
  function RecentRows(orders: seq<Order>): seq<OrderRow>
  {
    Take(NewestFirst(orders), 50)
  }

  /** The inner loop: one row per item of an order, all with the order's date. */
  method AppendRows(rows: seq<OrderRow>, date: string, items: seq<OrderItem>) returns (r: seq<OrderRow>)
    ensures r == rows + RowsOf(date, items)
  {
    r := rows;
    for j := 0 to |items|
      invariant r == rows + RowsOf(date, items[..j])
    {
      var item := items[j];
      r := r + [OrderRow(date, item.productName, item.ip, item.category, item.scale, item.quantity, item.subtotal)];
      assert RowsOf(date, items[..j + 1]) == RowsOf(date, items[..j]) + [RowOf(date, item)];
    }
    assert items[..|items|] == items;
  }

  lemma {:induction false} AllRowsAppend(a: seq<Order>, b: seq<Order>)
    ensures AllRows(a + b) == AllRows(a) + AllRows(b)
  {
    if a == [] {
      assert a + b == b;
    } else {
      assert (a + b)[1..] == a[1..] + b;
      AllRowsAppend(a[1..], b);
    }
  }

  lemma AllRowsPrefix(orders: seq<Order>, i: nat)
    requires i < |orders|
    ensures AllRows(orders[..i + 1]) == AllRows(orders[..i]) + RowsOf(Day(orders[i]), orders[i].items)
  {
    assert orders[..i + 1] == orders[..i] + [orders[i]];
    AllRowsAppend(orders[..i], [orders[i]]);
    assert AllRows([orders[i]]) == RowsOf(Day(orders[i]), orders[i].items) + AllRows([]);
  }

  /** `buildDashboardOrderRowsFromOrders`: all rows, sorted latest first, cut at 50. */
  method BuildOrderRows(orders: seq<Order>) returns (r: seq<OrderRow>)
    ensures r == RecentRows(orders)
  {
    var rows: seq<OrderRow> := [];
    for i := 0 to |orders|
      invariant rows == AllRows(orders[..i])
    {
      var date := Day(orders[i]);
      rows := AppendRows(rows, date, orders[i].items);
      AllRowsPrefix(orders, i);
    }
    assert orders[..|orders|] == orders;
    r := Take(SortBy(rows, LaterFirst), 50);
  }

  lemma {:induction false} AllRowsLength(orders: seq<Order>)
    ensures |AllRows(orders)| == |AllItems(orders)|
  {
    if orders != [] {
      AllRowsLength(orders[1..]);
    }
  }

  /** x is the row of some order line, dated by its order. */
  predicate FromLine(orders: seq<Order>, x: OrderRow)
  {
    exists a, b :: 0 <= a < |orders| && 0 <= b < |orders[a].items| && x == RowOf(Day(orders[a]), orders[a].items[b])
  }

  /** Every row comes from an order line, dated by its order. */
  lemma {:induction false} AllRowsFromOrders(orders: seq<Order>)
    ensures forall x :: x in AllRows(orders) ==> FromLine(orders, x)
  {
    if orders != [] {
      AllRowsFromOrders(orders[1..]);
      var head := RowsOf(Day(orders[0]), orders[0].items);
      forall x | x in AllRows(orders) ensures FromLine(orders, x) {
        if x in head {
          var b := Position(x, head);
          assert x == RowOf(Day(orders[0]), orders[0].items[b]);
        } else {
          assert x in AllRows(orders[1..]);
          assert FromLine(orders[1..], x);
          var a, b :| 0 <= a < |orders[1..]| && 0 <= b < |orders[1..][a].items| && x == RowOf(Day(orders[1..][a]), orders[1..][a].items[b]);
          assert orders[1..][a] == orders[a + 1];
        }
      }
    }
  }

  lemma LaterFirstOrders()
    ensures Connex(LaterFirst) && Transitive(LaterFirst)
  {
    forall a: OrderRow, b: OrderRow ensures LaterFirst(a, b) || LaterFirst(b, a) {
      LessTrichotomy(a.date, b.date);
    }
    forall a: OrderRow, b: OrderRow, c: OrderRow | LaterFirst(a, b) && LaterFirst(b, c) ensures LaterFirst(a, c) {
      AtMostTransitive(c.date, b.date, a.date);
    }
  }

  /** All rows, latest date first. */
  function NewestFirst(orders: seq<Order>): (r: seq<OrderRow>)
    ensures multiset(r) == multiset(AllRows(orders))
    ensures forall i, j :: 0 <= i < j < |r| ==> AtMost(r[j].date, r[i].date)
  {
    SortMultiset(AllRows(orders), LaterFirst);
    LaterFirstOrders();
    SortSorted(AllRows(orders), LaterFirst);
    SortBy(AllRows(orders), LaterFirst)
  }

  /** The table holds min(50, number of order lines) rows, and they are the
      first rows of the newest-first order. */
  lemma RecentRowsLength(orders: seq<Order>)
    ensures |RecentRows(orders)| == Min(50, |AllItems(orders)|)
    ensures RecentRows(orders) == NewestFirst(orders)[..|RecentRows(orders)|]
  {
    AllRowsLength(orders);
    assert |NewestFirst(orders)| == |AllRows(orders)| by {
      assert |multiset(NewestFirst(orders))| == |multiset(AllRows(orders))|;
    }
  }

  /** The table runs latest date first, and no row left out is dated later
      than a row shown. */
  lemma RecentRowsNewest(orders: seq<Order>)
    ensures forall i, j :: 0 <= i < j < |RecentRows(orders)| ==> AtMost(RecentRows(orders)[j].date, RecentRows(orders)[i].date)
    ensures forall i, j :: 0 <= i < |RecentRows(orders)| <= j < |NewestFirst(orders)| ==>
      AtMost(NewestFirst(orders)[j].date, RecentRows(orders)[i].date)
  {
    RecentRowsLength(orders);
  }

  /** Every row shown is the row of some order line, with its order's date. */
  lemma RecentRowsFromOrders(orders: seq<Order>)
    ensures forall i :: 0 <= i < |RecentRows(orders)| ==> FromLine(orders, RecentRows(orders)[i])
  {
    var s := NewestFirst(orders);
    var r := RecentRows(orders);
    RecentRowsLength(orders);
    AllRowsFromOrders(orders);
    forall i | 0 <= i < |r| ensures FromLine(orders, r[i]) {
      assert r[i] == s[i];
      assert s[i] in multiset(AllRows(orders));
    }
  }

  // ---------------------------------------------------------------------------
  // Overview
  // ---------------------------------------------------------------------------

  datatype Overview = Overview(
    totalRevenue: int,
    totalQuantity: int,
    totalOrders: int,
    trendData: TrendData,
    revenueByIp: seq<IpRevenue>,
    orderList: seq<OrderRow>)

  /** `/api/dashboard/overview`: the four builders over the order collection. */
  method BuildOverview(orders: seq<Order>, keys: seq<string>) returns (r: Overview)
    ensures r.totalRevenue == SumOf(orders, TotalAmountOf)
    ensures r.totalQuantity == SumOf(AllItems(orders), QuantityOf)
    ensures r.totalOrders == |orders|
    ensures |r.trendData.dates| == |r.trendData.values| == |TrendTable(orders, Dedup(keys))| <= |keys|
    ensures |r.trendData.dates| == |keys| <==> Distinct(keys)
    ensures forall m :: 0 <= m < |r.trendData.values| ==>
      r.trendData.values[m] == DayRevenue(orders, TrendTable(orders, Dedup(keys))[m].day)
    ensures r.revenueByIp == RevenueByIp(orders)
    ensures r.orderList == RecentRows(orders)
  {
    var totals := DashboardTotals(orders);
    var trend := BuildTrend(orders, keys);
    TrendEntries(orders, Dedup(keys));
    var byIp := BuildRevenueByIp(orders);
    var rows := BuildOrderRows(orders);
    r := Overview(totals.totalRevenue, totals.totalQuantity, totals.totalOrders, trend, byIp, rows);
  }
}
