/** The order list endpoint: keyword, status and date-range filters over the
    collection, then one page of the survivors. */
module QueryEngine {
  import opened Seqs
  import opened Text
  import opened Orders

  /** The list endpoint's query-string parameters; None for an absent one.
      page and pageSize are the values `Number(...)` produced. */
  datatype ListParams = ListParams(
    page: Option<int>,
    pageSize: Option<int>,
    keyword: Option<string>,
    status: Option<string>,
    startDate: Option<string>,
    endDate: Option<string>)

  datatype ListResult = ListResult(list: seq<Order>, total: int)

  function OrEmpty(s: Option<string>): string
  {
    match s
    case None => ""
    case Some(v) => v
  }

  /** `Number(params.page || 1)`. */
  function PageOf(p: ListParams): int
  {
    match p.page
    case None => 1
    case Some(n) => n
  }

  /** `Number(params.pageSize || 10)`. */
  function PageSizeOf(p: ListParams): int
  {
    match p.pageSize
    case None => 10
    case Some(n) => n
  }

  predicate ValidPaging(p: ListParams)
  {
    PageOf(p) >= 1 && PageSizeOf(p) >= 1
  }

  function KeywordOf(p: ListParams): string { Trim(OrEmpty(p.keyword)) }

  function StatusOf(p: ListParams): string { Trim(OrEmpty(p.status)) }

  /** A present, non-empty string: what `if (s)` accepts. */
  predicate Truthy(s: Option<string>)
  {
    s.Some? && s.value != ""
  }

  /** The date range applies only when both bounds are given. */
  predicate DateFilterOn(p: ListParams)
  {
    Truthy(p.startDate) && Truthy(p.endDate)
  }

  predicate KeywordHit(order: Order, keyword: string)
  {
    Includes(order.orderNo, keyword) || Includes(order.customerName, keyword) || Includes(order.phone, keyword)
  }

  /** `startDate <= createdAt.slice(0, 10) <= endDate`, compared as strings. */
  predicate InRange(order: Order, startDate: string, endDate: string)
  {
    AtMost(startDate, Day(order)) && AtMost(Day(order), endDate)
  }

  // The three filters as the handler writes them.

  function KeywordFilter(keyword: string): Order -> bool
  {
    o => KeywordHit(o, keyword)
  }

  function StatusFilter(status: string): Order -> bool
  {
    (o: Order) => StatusName(o.status) == status
  }

  function DateFilter(startDate: string, endDate: string): Order -> bool
  {
    o => InRange(o, startDate, endDate)
  }

  // The same filters, each one the identity test when it is not active.

  function KeywordTest(p: ListParams): Order -> bool
  {
    o => KeywordOf(p) == "" || KeywordHit(o, KeywordOf(p))
  }

  function StatusTest(p: ListParams): Order -> bool
  {
    (o: Order) => StatusOf(p) == "" || StatusName(o.status) == StatusOf(p)
  }

  function DateTest(p: ListParams): Order -> bool
  {
    o => !DateFilterOn(p) || InRange(o, p.startDate.value, p.endDate.value)
  }

  function KeywordAndStatusTest(p: ListParams): Order -> bool
  {
    o => KeywordTest(p)(o) && StatusTest(p)(o)
  }

  /** An order passes every active filter. */
  predicate Selected(order: Order, p: ListParams)
  {
    && (KeywordOf(p) != "" ==> KeywordHit(order, KeywordOf(p)))
    && (StatusOf(p) != "" ==> StatusName(order.status) == StatusOf(p))
    && (DateFilterOn(p) ==> InRange(order, p.startDate.value, p.endDate.value))
  }

  function Selector(p: ListParams): Order -> bool
  {
    o => Selected(o, p)
  }

  /** The filter chain as the handler runs it: each active filter in turn. */
  function Filtered(orders: seq<Order>, p: ListParams): seq<Order>
  {
    var byKeyword := if KeywordOf(p) != "" then Filter(orders, KeywordFilter(KeywordOf(p))) else orders;
    var byStatus := if StatusOf(p) != "" then Filter(byKeyword, StatusFilter(StatusOf(p))) else byKeyword;
    if DateFilterOn(p) then Filter(byStatus, DateFilter(p.startDate.value, p.endDate.value)) else byStatus
  }

  /** A filter step equals the filter by its test when active and is skipped otherwise. */
  lemma {:induction false} StepIsTest(xs: seq<Order>, on: bool, hit: Order -> bool, test: Order -> bool)
    requires forall o :: test(o) == (!on || hit(o))
    ensures (if on then Filter(xs, hit) else xs) == Filter(xs, test)
  {
    if on {
      if xs != [] {
        StepIsTest(xs[1..], on, hit, test);
      }
    } else {
      FilterKeepsAll(xs, test);
    }
  }

  lemma KeywordStep(orders: seq<Order>, p: ListParams)
    ensures (if KeywordOf(p) != "" then Filter(orders, KeywordFilter(KeywordOf(p))) else orders)
            == Filter(orders, KeywordTest(p))
  {
    StepIsTest(orders, KeywordOf(p) != "", KeywordFilter(KeywordOf(p)), KeywordTest(p));
  }

  lemma StatusStep(orders: seq<Order>, p: ListParams)
    ensures (if StatusOf(p) != "" then Filter(orders, StatusFilter(StatusOf(p))) else orders)
            == Filter(orders, StatusTest(p))
  {
    StepIsTest(orders, StatusOf(p) != "", StatusFilter(StatusOf(p)), StatusTest(p));
  }

  lemma DateStep(orders: seq<Order>, p: ListParams)
    ensures (if DateFilterOn(p) then Filter(orders, DateFilter(p.startDate.value, p.endDate.value)) else orders)
            == Filter(orders, DateTest(p))
  {
    if DateFilterOn(p) {
      StepIsTest(orders, true, DateFilter(p.startDate.value, p.endDate.value), DateTest(p));
    } else {
      FilterKeepsAll(orders, DateTest(p));
    }
  }

  /** The chain keeps exactly the orders that pass every active filter, in
      whichever order the filters are applied. */
  lemma FilteredIsSelection(orders: seq<Order>, p: ListParams)
    ensures Filtered(orders, p) == Filter(orders, Selector(p))
  {
    KeywordStep(orders, p);
    var byKeyword := Filter(orders, KeywordTest(p));
    StatusStep(byKeyword, p);
    var byStatus := Filter(byKeyword, StatusTest(p));
    DateStep(byStatus, p);
    CombineTests(orders, p);
  }

  lemma CombineTests(orders: seq<Order>, p: ListParams)
    ensures Filter(Filter(Filter(orders, KeywordTest(p)), StatusTest(p)), DateTest(p)) == Filter(orders, Selector(p))
  {
    forall o ensures KeywordAndStatusTest(p)(o) == (KeywordTest(p)(o) && StatusTest(p)(o)) { }
    FilterTwice(orders, KeywordTest(p), StatusTest(p), KeywordAndStatusTest(p));
    forall o ensures Selector(p)(o) == (KeywordAndStatusTest(p)(o) && DateTest(p)(o)) {
      assert Selector(p)(o) == Selected(o, p);
    }
    FilterTwice(orders, KeywordAndStatusTest(p), DateTest(p), Selector(p));
  }

  /** `filtered.slice((page - 1) * pageSize, (page - 1) * pageSize + pageSize)`. */
  function Page<T>(xs: seq<T>, page: int, size: int): seq<T>
    requires page >= 1 && size >= 1
  {
    Slice(xs, (page - 1) * size, (page - 1) * size + size)
  }

  /** The list handler. */
  function Query(orders: seq<Order>, p: ListParams): (r: ListResult)
    requires ValidPaging(p)
    ensures r.total == |Filter(orders, Selector(p))|
    ensures r.list == Page(Filter(orders, Selector(p)), PageOf(p), PageSizeOf(p))
    ensures |r.list| <= PageSizeOf(p)
    ensures forall i :: 0 <= i < |r.list| ==> Selected(r.list[i], p)
  {
    var filtered := Filtered(orders, p);
    FilteredIsSelection(orders, p);
    PageIsSelected(orders, p);
    ListResult(Page(filtered, PageOf(p), PageSizeOf(p)), |filtered|)
  }

  lemma PageIsSelected(orders: seq<Order>, p: ListParams)
    requires ValidPaging(p)
    ensures var list := Page(Filter(orders, Selector(p)), PageOf(p), PageSizeOf(p));
      forall i :: 0 <= i < |list| ==> Selected(list[i], p)
  {
    var f := Filter(orders, Selector(p));
    var list := Page(f, PageOf(p), PageSizeOf(p));
    PageOfFilter(orders, Selector(p), PageOf(p), PageSizeOf(p));
    forall i | 0 <= i < |list| ensures Selected(list[i], p) {
      assert Selector(p)(list[i]);
    }
  }

  lemma PageOfFilter<T>(xs: seq<T>, q: T -> bool, page: int, size: int)
    requires page >= 1 && size >= 1
    ensures forall i :: 0 <= i < |Page(Filter(xs, q), page, size)| ==> q(Page(Filter(xs, q), page, size)[i])
  {
    var start := (page - 1) * size;
    SliceOfFilter(xs, q, start, start + size);
  }

  /** The filtered sequence is exact: it is a subsequence of the collection, and
      each order occurs in it as often as in the collection if it passes every
      active filter, and not at all otherwise. */
  lemma FilteringIsExact(orders: seq<Order>, p: ListParams)
    ensures IsSubsequence(Filter(orders, Selector(p)), orders)
    ensures forall o :: multiset(Filter(orders, Selector(p)))[o] == if Selected(o, p) then multiset(orders)[o] else 0
  {
    FilterIsSubsequence(orders, Selector(p));
    FilterMultiplicity(orders, Selector(p));
    forall o ensures Selector(p)(o) == Selected(o, p) { }
  }

  /** With only one of the two date bounds, the query ignores dates altogether. */
  lemma HalfDateRangeIgnored(orders: seq<Order>, p: ListParams)
    requires ValidPaging(p) && !DateFilterOn(p)
    ensures Query(orders, p) == Query(orders, p.(startDate := None, endDate := None))
  {
    var q := p.(startDate := None, endDate := None);
    forall o ensures Selected(o, p) == Selected(o, q) { }
    SameSelection(orders, p, q);
  }

  /** An empty or all-blank keyword is no constraint. */
  lemma BlankKeywordIgnored(orders: seq<Order>, p: ListParams)
    requires ValidPaging(p) && KeywordOf(p) == ""
    ensures Query(orders, p) == Query(orders, p.(keyword := None))
  {
    var q := p.(keyword := None);
    assert KeywordOf(q) == "" by { EmptyTrim(); }
    forall o ensures Selected(o, p) == Selected(o, q) { }
    SameSelection(orders, p, q);
  }

  /** An empty or all-blank status is no constraint. */
  lemma BlankStatusIgnored(orders: seq<Order>, p: ListParams)
    requires ValidPaging(p) && StatusOf(p) == ""
    ensures Query(orders, p) == Query(orders, p.(status := None))
  {
    var q := p.(status := None);
    assert StatusOf(q) == "" by { EmptyTrim(); }
    forall o ensures Selected(o, p) == Selected(o, q) { }
    SameSelection(orders, p, q);
  }

  lemma EmptyTrim()
    ensures Trim("") == ""
  {
  }

  /** Parameters that select the same orders and ask for the same page give the same answer. */
  lemma SameSelection(orders: seq<Order>, p: ListParams, q: ListParams)
    requires ValidPaging(p) && PageOf(q) == PageOf(p) && PageSizeOf(q) == PageSizeOf(p)
    requires forall o :: Selected(o, p) == Selected(o, q)
    ensures Query(orders, p) == Query(orders, q)
  {
    forall o ensures Selector(p)(o) == Selector(q)(o) {
      assert Selector(p)(o) == Selected(o, p) && Selector(q)(o) == Selected(o, q);
    }
    FilterExt(orders, Selector(p), Selector(q));
  }

  /** A page at or past the end of the filtered sequence is empty. */
  lemma PagePastEnd<T>(xs: seq<T>, page: int, size: int)
    requires page >= 1 && size >= 1 && (page - 1) * size >= |xs|
    ensures Page(xs, page, size) == []
  {
  }

  /** Pages 1..n, concatenated. */
  function Pages<T>(xs: seq<T>, size: int, n: nat): seq<T>
    requires size >= 1
  {
    if n == 0 then [] else Pages(xs, size, n - 1) + Page(xs, n, size)
  }

  lemma {:induction false} PagesArePrefix<T>(xs: seq<T>, size: int, n: nat)
    requires size >= 1
    ensures Pages(xs, size, n) == xs[..Min(n * size, |xs|)]
  {
    if n > 0 {
      PagesArePrefix(xs, size, n - 1);
      var lo := (n - 1) * size;
      assert lo + size == n * size;
      var hi := Min(n * size, |xs|);
      if lo >= |xs| {
        assert hi == |xs| && Page(xs, n, size) == [];
      } else {
        assert Page(xs, n, size) == xs[lo..hi];
        assert xs[..lo] + xs[lo..hi] == xs[..hi];
      }
    }
  }

  /** ceil(total / pageSize). */
  function PageCount(total: nat, size: int): nat
    requires size >= 1
  {
    (total + size - 1) / size
  }

  /** Concatenating pages 1..ceil(total / pageSize) gives back the whole
      filtered sequence, with nothing repeated and nothing lost. */
  lemma PagesCoverAll<T>(xs: seq<T>, size: int)
    requires size >= 1
    ensures Pages(xs, size, PageCount(|xs|, size)) == xs
  {
    var n := PageCount(|xs|, size);
    assert n * size >= |xs| by {
      assert (|xs| + size - 1) == n * size + (|xs| + size - 1) % size;
    }
    PagesArePrefix(xs, size, n);
  }
}
