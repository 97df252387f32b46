/** Grouping of order items by a key, as the report builders do with a `Map`
    from product name or IP: a group appears when its key is first seen, a
    `Map` keeps its entries in that order, and each group accumulates the
    quantity and revenue of its items. */
module Grouping {
  import opened Seqs
  import opened Orders

  /** One map entry: the key, the first item seen with that key, and the
      running quantity and revenue of all items seen with it. */
  datatype Group = Group(key: string, first: OrderItem, quantity: int, revenue: int)

  function GroupKey(g: Group): string { g.key }
  function GroupQuantity(g: Group): int { g.quantity }
  function GroupRevenue(g: Group): int { g.revenue }

  /** `map.get(k)`: the position of the group with key k, or |gs| when there is none. */
  function IndexOfKey(gs: seq<Group>, k: string): (i: nat)
    ensures i <= |gs|
    ensures i < |gs| ==> gs[i].key == k
    ensures forall j :: 0 <= j < i ==> gs[j].key != k
  {
    if gs == [] then 0 else if gs[0].key == k then 0 else 1 + IndexOfKey(gs[1..], k)
  }

  /** A group that has key k is found. */
  lemma {:induction false} KeyFound(gs: seq<Group>, k: string, m: nat)
    requires m < |gs| && gs[m].key == k
    ensures IndexOfKey(gs, k) <= m
  {
  }

  /** An existing group taking one more item into its sums. */
  function Absorb(g: Group, item: OrderItem): Group
  {
    g.(quantity := g.quantity + item.quantity, revenue := g.revenue + item.subtotal)
  }

  /** One step of the builders' loop: an existing group takes the item into its
      sums; otherwise a new group for the item's key is added at the end. */
  function AddItem(gs: seq<Group>, item: OrderItem, key: OrderItem -> string): seq<Group>
  {
    var k := key(item);
    var i := IndexOfKey(gs, k);
    if i < |gs| then
      gs[i := Absorb(gs[i], item)]
    else
      gs + [Group(k, item, item.quantity, item.subtotal)]
  }

  lemma {:induction false} AddItemFound(gs: seq<Group>, item: OrderItem, key: OrderItem -> string, k: string)
    requires key(item) == k && IndexOfKey(gs, k) < |gs|
    ensures var i := IndexOfKey(gs, k);
      AddItem(gs, item, key) == gs[i := Absorb(gs[i], item)]
  {
  }

  lemma {:induction false} AddItemMissing(gs: seq<Group>, item: OrderItem, key: OrderItem -> string, k: string)
    requires key(item) == k && IndexOfKey(gs, k) == |gs|
    ensures AddItem(gs, item, key) == gs + [Group(k, item, item.quantity, item.subtotal)]
  {
  }

  /** The map after all items, visited in order. */
  function Groups(items: seq<OrderItem>, key: OrderItem -> string): seq<Group>
  {
    if items == [] then [] else AddItem(Groups(items[..|items| - 1], key), items[|items| - 1], key)
  }

  lemma GroupsSnoc(items: seq<OrderItem>, x: OrderItem, key: OrderItem -> string)
    ensures Groups(items + [x], key) == AddItem(Groups(items, key), x, key)
  {
    assert (items + [x])[..|items + [x]| - 1] == items;
  }

  function HasKey(key: OrderItem -> string, k: string): OrderItem -> bool
  {
    it => key(it) == k
  }

  /** The items with key k, in order. */
  function WithKey(items: seq<OrderItem>, key: OrderItem -> string, k: string): seq<OrderItem>
  {
    Filter(items, HasKey(key, k))
  }

  /** g accounts exactly for the items `its` (the items of its key): it
      remembers the first of them and holds the sums of their quantities and
      subtotals. */
  predicate Summarises(g: Group, its: seq<OrderItem>)
  {
    |its| > 0 && g.first == its[0] && g.quantity == SumOf(its, QuantityOf) && g.revenue == SumOf(its, SubtotalOf)
  }

  predicate KeysDistinct(gs: seq<Group>)
  {
    forall i, j :: 0 <= i < j < |gs| ==> gs[i].key != gs[j].key
  }

  /** gs has one group per key of items, each keyed by its first item. */
  predicate KeysOf(gs: seq<Group>, items: seq<OrderItem>, key: OrderItem -> string)
  {
    && KeysDistinct(gs)
    && (forall m :: 0 <= m < |gs| ==> gs[m].key == key(gs[m].first))
    && (forall j :: 0 <= j < |items| ==> IndexOfKey(gs, key(items[j])) < |gs|)
  }

  lemma {:induction false} KeysFound(pre: seq<OrderItem>, x: OrderItem, key: OrderItem -> string, gs0: seq<Group>)
    requires KeysOf(gs0, pre, key) && IndexOfKey(gs0, key(x)) < |gs0|
    ensures KeysOf(AddItem(gs0, x, key), pre + [x], key)
  {
    var i := IndexOfKey(gs0, key(x));
    AddItemFound(gs0, x, key, key(x));
    var gs := AddItem(gs0, x, key);
    assert forall m :: 0 <= m < |gs| ==> gs[m].key == gs0[m].key && gs[m].first == gs0[m].first;
    forall j | 0 <= j < |pre + [x]| ensures IndexOfKey(gs, key((pre + [x])[j])) < |gs| {
      if j < |pre| {
        KeyFound(gs, key(pre[j]), IndexOfKey(gs0, key(pre[j])));
      } else {
        KeyFound(gs, key(x), i);
      }
    }
  }

  lemma {:induction false} KeysMissing(pre: seq<OrderItem>, x: OrderItem, key: OrderItem -> string, gs0: seq<Group>)
    requires KeysOf(gs0, pre, key) && IndexOfKey(gs0, key(x)) == |gs0|
    ensures KeysOf(AddItem(gs0, x, key), pre + [x], key)
  {
    AddItemMissing(gs0, x, key, key(x));
    var gs := AddItem(gs0, x, key);
    forall j | 0 <= j < |pre + [x]| ensures IndexOfKey(gs, key((pre + [x])[j])) < |gs| {
      if j < |pre| {
        KeyFound(gs, key(pre[j]), IndexOfKey(gs0, key(pre[j])));
      } else {
        KeyFound(gs, key(x), |gs0|);
      }
    }
  }

  /** One group per key: keys are distinct and every item's key has a group. */
  lemma {:induction false} GroupsKeys(items: seq<OrderItem>, key: OrderItem -> string)
    ensures KeysDistinct(Groups(items, key))
    ensures forall m :: 0 <= m < |Groups(items, key)| ==> Groups(items, key)[m].key == key(Groups(items, key)[m].first)
    ensures forall j :: 0 <= j < |items| ==> IndexOfKey(Groups(items, key), key(items[j])) < |Groups(items, key)|
  {
    if items != [] {
      var pre := items[..|items| - 1];
      var x := items[|items| - 1];
      assert items == pre + [x];
      GroupsKeys(pre, key);
      GroupsSnoc(pre, x, key);
      if IndexOfKey(Groups(pre, key), key(x)) < |Groups(pre, key)| {
        KeysFound(pre, x, key, Groups(pre, key));
      } else {
        KeysMissing(pre, x, key, Groups(pre, key));
      }
    }
  }

  lemma {:induction false} WithKeySnoc(pre: seq<OrderItem>, x: OrderItem, key: OrderItem -> string, k: string)
    ensures WithKey(pre + [x], key, k) == WithKey(pre, key, k) + (if key(x) == k then [x] else [])
  {
    FilterSnoc(pre, x, HasKey(key, k));
  }

  lemma {:induction false} SummarisesAbsorb(g: Group, its: seq<OrderItem>, x: OrderItem)
    requires Summarises(g, its)
    ensures Summarises(Absorb(g, x), its + [x])
  {
    SumOfAppend(its, [x], QuantityOf);
    SumOfAppend(its, [x], SubtotalOf);
  }

  /** A key that no item has selects no items. */
  lemma {:induction false} WithKeyAbsent(pre: seq<OrderItem>, key: OrderItem -> string, k: string)
    requires forall j :: 0 <= j < |pre| ==> key(pre[j]) != k
    ensures WithKey(pre, key, k) == []
  {
    forall j | 0 <= j < |pre| ensures !HasKey(key, k)(pre[j]) { }
    FilterNone(pre, HasKey(key, k));
  }

  /** A group whose key the new item does not have is unchanged, and so are its items. */
  lemma {:induction false} SummariseOther(pre: seq<OrderItem>, x: OrderItem, key: OrderItem -> string, gs0: seq<Group>, m: nat)
    requires m < |gs0| && gs0[m].key != key(x)
    requires Summarises(gs0[m], WithKey(pre, key, gs0[m].key))
    requires m < |AddItem(gs0, x, key)| && AddItem(gs0, x, key)[m] == gs0[m]
    ensures Summarises(AddItem(gs0, x, key)[m], WithKey(pre + [x], key, AddItem(gs0, x, key)[m].key))
  {
    WithKeySnoc(pre, x, key, gs0[m].key);
    assert WithKey(pre, key, gs0[m].key) + [] == WithKey(pre, key, gs0[m].key);
  }

  /** The group with the new item's key takes it in. */
  lemma {:induction false} SummariseAbsorbed(pre: seq<OrderItem>, x: OrderItem, key: OrderItem -> string, gs0: seq<Group>, i: nat)
    requires i == IndexOfKey(gs0, key(x)) && i < |gs0|
    requires Summarises(gs0[i], WithKey(pre, key, gs0[i].key))
    ensures Summarises(AddItem(gs0, x, key)[i], WithKey(pre + [x], key, AddItem(gs0, x, key)[i].key))
  {
    var k := key(x);
    AddItemFound(gs0, x, key, k);
    WithKeySnoc(pre, x, key, k);
    SummarisesAbsorb(gs0[i], WithKey(pre, key, k), x);
  }

  /** A new key starts a group holding just the new item. */
  lemma {:induction false} SummariseNew(pre: seq<OrderItem>, x: OrderItem, key: OrderItem -> string, gs0: seq<Group>)
    requires IndexOfKey(gs0, key(x)) == |gs0|
    requires forall j :: 0 <= j < |pre| ==> IndexOfKey(gs0, key(pre[j])) < |gs0|
    ensures |AddItem(gs0, x, key)| == |gs0| + 1
    ensures Summarises(AddItem(gs0, x, key)[|gs0|], WithKey(pre + [x], key, AddItem(gs0, x, key)[|gs0|].key))
  {
    var k := key(x);
    AddItemMissing(gs0, x, key, k);
    forall j | 0 <= j < |pre| ensures key(pre[j]) != k {
      assert IndexOfKey(gs0, key(pre[j])) < |gs0|;
    }
    WithKeyAbsent(pre, key, k);
    WithKeySnoc(pre, x, key, k);
    assert WithKey(pre + [x], key, k) == [x];
  }

  /** Each group summarises exactly the items with its key. */
  lemma {:induction false} GroupsSummarise(items: seq<OrderItem>, key: OrderItem -> string)
    ensures forall m :: 0 <= m < |Groups(items, key)| ==>
      Summarises(Groups(items, key)[m], WithKey(items, key, Groups(items, key)[m].key))
  {
    if items != [] {
      var pre := items[..|items| - 1];
      var x := items[|items| - 1];
      assert items == pre + [x];
      var gs0 := Groups(pre, key);
      var gs := Groups(items, key);
      GroupsSummarise(pre, key);
      GroupsKeys(pre, key);
      GroupsSnoc(pre, x, key);
      var i := IndexOfKey(gs0, key(x));
      if i < |gs0| {
        AddItemFound(gs0, x, key, key(x));
      } else {
        AddItemMissing(gs0, x, key, key(x));
      }
      forall m | 0 <= m < |gs| ensures Summarises(gs[m], WithKey(items, key, gs[m].key)) {
        if m == i && i < |gs0| {
          SummariseAbsorbed(pre, x, key, gs0, i);
        } else if m == i {
          SummariseNew(pre, x, key, gs0);
        } else {
          SummariseOther(pre, x, key, gs0, m);
        }
      }
    }
  }

  /** No item is lost or counted twice: the groups' revenues add up to the
      items' subtotals, and their quantities to the items' quantities. */
  lemma {:induction false} GroupsTotals(items: seq<OrderItem>, key: OrderItem -> string)
    ensures SumOf(Groups(items, key), GroupRevenue) == SumOf(items, SubtotalOf)
    ensures SumOf(Groups(items, key), GroupQuantity) == SumOf(items, QuantityOf)
  {
    if items != [] {
      var pre := items[..|items| - 1];
      var x := items[|items| - 1];
      assert items == pre + [x];
      var gs0 := Groups(pre, key);
      GroupsTotals(pre, key);
      SumOfAppend(pre, [x], SubtotalOf);
      SumOfAppend(pre, [x], QuantityOf);
      var i := IndexOfKey(gs0, key(x));
      if i < |gs0| {
        var g := Absorb(gs0[i], x);
        SumOfUpdate(gs0, i, g, GroupRevenue);
        SumOfUpdate(gs0, i, g, GroupQuantity);
      } else {
        var g := Group(key(x), x, x.quantity, x.subtotal);
        SumOfAppend(gs0, [g], GroupRevenue);
        SumOfAppend(gs0, [g], GroupQuantity);
      }
    }
  }
}
