# Order analytics of the figure-shop mock backend

This project models the in-memory order analytics of the shop's mock backend in Dafny and proves properties of the model. The backend keeps a generated list of orders and answers list, detail and status-update requests on it. It also builds the daily, monthly, quarterly and annual reports and the home dashboard from the list, and it keeps a product identity table that the inventory form adds to.

The modules follow the source:

- `Orders` holds the order and order-item records. It also states the amount invariant: a subtotal is price times quantity, and an order total is the sum of its subtotals.
- `OrderCollection` covers the one-time initialisation that establishes that invariant, the two detail lookups and the status update. `OrderCollection.OrderStore` is a class whose `orders` field the initialisation and the status update change in place. The same code runs over two such lists: the one in `src/mock/base.ts`, shared with `src/mock/order.ts`, and the copy in `src/mock/report.ts`. In that copy the list and update handlers repeat the order module's. Its detail handler is different: it reads the id with `Number()`, refuses a missing or non-numeric id, and compares ids as numbers (`OrderCollection.DetailByNumber`). The order module's handler compares `String(o.id)` with `String(id)` (`OrderCollection.Detail`).
- `QueryEngine` is the list endpoint. It has three optional filters (keyword, status, date range) and then cuts out one page.
- `Grouping` is the `Map` that the report builders fill item by item. The map is a sequence of groups in insertion order.
- `Reports` covers the product table of the daily report, the daily summary, the month-length computation and the monthly and annual series.
- `Dashboard` covers the home overview:
  - the totals;
  - the seven-day revenue trend, over the distinct day keys;
  - revenue by IP, with an unknown bucket;
  - the newest 50 order lines.
- `Catalog` holds the option lists, the product identity table, the priced product listing and both variants of the add endpoint. The variant in `src/mock/product.ts` takes the head's id plus one. The variant in `src/mock/report.ts` takes the table length plus 1001.
- `Seqs`, `Text` and `Numbers` model the JavaScript operations these rely on:
  - `filter`, `slice`, `reduce` and the stable `sort`;
  - `trim`, `includes` and string comparison;
  - `String(n)` and the decimal part of `Number(s)`.

The builders that loop and mutate a `Map` or push onto an array are methods with loop invariants. Each is proved equal to a function of its input (`Reports.ProductStats`, `Dashboard.RevenueByIp`, `Dashboard.RecentRows`, the trend table), and the lemmas state what those functions mean. The filter chain, the summaries and the lookups are functions.

Several inputs are passed in as parameters:

- the randomly generated order list;
- every random series (prices, stocks, the monthly and annual draws);
- the seven day keys the trend takes from the clock.

One proved fact stands out. The head-plus-one id rule of the add endpoint gives 1002 on the initial table, and 1002 is already the id of its second entry (`Catalog.FirstAddDuplicates`). The rule gives a fresh id whenever the head holds the largest id (`Catalog.NextIdFresh`).

## Model

| member | source | states |
|---|---|---|
| Orders.AllItemsAppend | src/mock/report.ts:317-318 | the items of two order lists concatenated are the items of each, in order |
| Orders.AllItemsPrefix | src/mock/report.ts:317-318 | visiting one more order appends exactly its items to those seen so far |
| Orders.TotalsMatchSubtotals | src/mock/base.ts:116 | on consistent orders the sum of order totals equals the sum of all item subtotals |
| OrderCollection.WithSubtotals | src/mock/base.ts:112-115 | same number of items; each item keeps every field but subtotal, and its subtotal is price times quantity |
| OrderCollection.Initialised | src/mock/base.ts:111-118 | one order after initialisation; `OrderCollection.InitialisedIsConsistent` proves it meets the amount invariant and keeps every other field |
| OrderCollection.InitialisedIsConsistent | src/mock/base.ts:111-118 | an initialised order meets the amount invariant and differs from the generated one only in subtotals and total |
| OrderCollection.ProductBounds | src/mock/base.ts:90-91 | a price in 99..1999 times a quantity in 1..3 lies in 99..5997 |
| OrderCollection.GeneratedAmountBounds | src/mock/base.ts:90-116 | for generated orders every subtotal lies in 99..5997 and the total in 198..11994 |
| OrderCollection.IndexByKey | src/mock/order.ts:61 | the first position whose `String(o.id)` equals the key, or the length when none does |
| OrderCollection.Detail | src/mock/order.ts:58-74 | found exactly when some order's printed id equals `String(id)`, and then it is the first such order; otherwise 404 |
| OrderCollection.DetailWithoutId | src/mock/order.ts:60-67 | a missing id (printed "undefined") matches no order, so the answer is 404 |
| OrderCollection.IndexByNumber | src/mock/report.ts:253 | the first position whose id equals the parsed number, or the length |
| OrderCollection.DetailByNumber | src/mock/report.ts:246-265 | refused exactly when the id is missing, empty or not a number; otherwise the first order whose id equals the numeral's exact value, or 404 when none has it |
| OrderCollection.DetailsAgree | src/mock/report.ts:230-266 | for an id written as `String(n)` the numeric lookup and the string lookup give the same answer |
| OrderCollection.WithStatus | src/mock/order.ts:80-89 | the collection after a status update keeps its length |
| OrderCollection.WithStatusChangesOnlyStatus | src/mock/order.ts:80-89 | an unmatched key changes nothing; a match changes only the status of the first matching order, and every other order is unchanged |
| OrderCollection.IndexByKeyIgnoresStatus | src/mock/order.ts:80 | a status update never changes which order a key finds |
| OrderCollection.WithStatusIdempotent | src/mock/order.ts:77-96 | repeating an update changes nothing; a later update to another status overrides the earlier one |
| OrderCollection.WithStatusKeepsConsistency | src/mock/order.ts:89 | a status update keeps the amount invariant |
| OrderCollection.OrderStore.constructor | src/mock/base.ts:71-108 | the store starts with the generated orders |
| OrderCollection.OrderStore.Initialise | src/mock/base.ts:111-118 | in place, each order becomes its initialised form; the count and the other fields are kept, and afterwards every order meets the amount invariant |
| OrderCollection.OrderStore.UpdateStatus | src/mock/order.ts:77-96 | the new collection is the status update of the old; the reply is the updated order, or 404 with nothing changed; the amount invariant is kept |
| QueryEngine.StepIsTest | src/mock/order.ts:22-41 | a filter step that runs only when active equals one filter by "inactive or hit" |
| QueryEngine.KeywordStep | src/mock/order.ts:22-30 | the keyword step equals a filter that is the identity for an empty keyword |
| QueryEngine.StatusStep | src/mock/order.ts:32-34 | the status step equals a filter that is the identity for an empty status |
| QueryEngine.DateStep | src/mock/order.ts:36-41 | the date step equals a filter that is the identity unless both bounds are given |
| QueryEngine.FilteredIsSelection | src/mock/order.ts:20-41 | the filter chain keeps exactly the orders that pass every active filter |
| QueryEngine.CombineTests | src/mock/order.ts:22-41 | the three successive filters are one filter by their conjunction |
| QueryEngine.Filtered | src/mock/order.ts:20-41 | the filter chain as the handler runs it; `QueryEngine.FilteredIsSelection` proves it is one filter by every active test |
| QueryEngine.Page | src/mock/order.ts:44-46 | one page of a sequence; `QueryEngine.PagesCoverAll` proves that the pages in turn give back the sequence |
| QueryEngine.Query | src/mock/order.ts:10-55 | total is the number of selected orders; the list is the requested page of them, holds at most pageSize orders, and each passes every active filter |
| QueryEngine.PageIsSelected | src/mock/order.ts:43-46 | every order on a page passes every active filter |
| QueryEngine.PageOfFilter | src/mock/order.ts:44-46 | every element of a page of a filtered sequence satisfies the filter |
| QueryEngine.FilteringIsExact | src/mock/order.ts:20-41 | the filtered list is a subsequence of the collection, and it holds each selected order as often as the collection does and no other order |
| QueryEngine.HalfDateRangeIgnored | src/mock/order.ts:36 | with only one date bound the answer is the same as with none |
| QueryEngine.BlankKeywordIgnored | src/mock/order.ts:15-22 | a keyword that trims to empty gives the same answer as no keyword |
| QueryEngine.BlankStatusIgnored | src/mock/order.ts:16-32 | a status that trims to empty gives the same answer as no status |
| QueryEngine.EmptyTrim | src/mock/order.ts:15 | an absent parameter trims to the empty string |
| QueryEngine.SameSelection | src/mock/order.ts:10-55 | parameters that select the same orders and ask for the same page give the same answer |
| QueryEngine.PagePastEnd | src/mock/order.ts:44-46 | a page starting at or past the end of the filtered list is empty |
| QueryEngine.PagesArePrefix | src/mock/order.ts:44-46 | pages 1..n concatenated are the first min(n * pageSize, total) filtered orders |
| QueryEngine.PagesCoverAll | src/mock/order.ts:43-46 | pages 1..ceil(total / pageSize) concatenated give back the filtered list, with nothing repeated or lost |
| Seqs.Filter | src/mock/order.ts:23-40 | `filter` keeps only elements that pass its test and never grows the sequence |
| Seqs.FilterIsSubsequence | src/mock/order.ts:23-40 | `filter` keeps the relative order of the survivors |
| Seqs.SubsequenceSnoc | src/mock/report.ts:528-533 | a subsequence stays one when the longer sequence grows at the end |
| Seqs.LastIsSubsequence | src/mock/report.ts:528-533 | a sequence's last element alone is a subsequence of it |
| Seqs.SubsequenceAppend | src/mock/report.ts:528-533 | both sequences growing by the same element keeps a subsequence one |
| Seqs.FilterMultiplicity | src/mock/order.ts:23-40 | `filter` keeps every occurrence of a passing element and none of a failing one |
| Seqs.FilterKeepsAll | src/mock/order.ts:22-41 | a filter every element passes changes nothing |
| Seqs.FilterTwice | src/mock/order.ts:22-41 | two successive filters are one filter by the conjunction |
| Seqs.FilterAppend | src/mock/report.ts:536-541 | filtering distributes over concatenation |
| Seqs.FilterSnoc | src/mock/report.ts:536-541 | one more element is kept at the end exactly when it passes |
| Seqs.FilterNone | src/mock/report.ts:536-541 | nothing survives a filter no element passes |
| Seqs.FilterExt | src/mock/order.ts:22-41 | filters by tests that agree on every element give the same result |
| Seqs.Slice | src/mock/order.ts:46 | `slice(start, end)` clips both bounds to the length: the result has min(end, length) - min(start, length) elements, or none when that is negative, and element i is the input's element start + i |
| Seqs.SliceOfFilter | src/mock/order.ts:46 | every element of a slice of a filtered sequence satisfies the filter |
| Seqs.SumOf | src/mock/base.ts:116 | `reduce` summing a value per element; `Seqs.SumOfAppend` and `Seqs.SumOfUpdate` state how it behaves |
| Seqs.SumOfAppend | src/mock/base.ts:116 | a `reduce` sum over a concatenation is the sum of the two sums |
| Seqs.SumOfUpdate | src/mock/report.ts:323-324 | replacing one element changes the sum by the difference of the two values |
| Seqs.InsertMultiset | src/mock/report.ts:340 | inserting adds exactly the one element |
| Seqs.Insert | src/mock/report.ts:340 | one insertion step of the sort; `Seqs.InsertMultiset` and `Seqs.InsertSorted` state what it does |
| Seqs.SortBy | src/mock/report.ts:340 | `Array.prototype.sort` with a comparator, which is stable; `Seqs.SortMultiset` and `Seqs.SortSorted` prove it a permutation that comes out sorted |
| Seqs.SortMultiset | src/mock/report.ts:340 | `sort` is a permutation |
| Seqs.InsertSorted | src/mock/report.ts:340 | inserting into a sorted sequence keeps it sorted |
| Seqs.SortSorted | src/mock/report.ts:340 | with a total, transitive comparator `sort` yields a sorted sequence |
| Seqs.SortKeepsSum | src/mock/report.ts:340 | sorting keeps every sum over the elements |
| Seqs.InsertKeepsSum | src/mock/report.ts:340 | inserting adds the element's value to a sum |
| Seqs.InsertKeepsDistinct | src/mock/report.ts:340 | inserting an element with a new key keeps keys distinct |
| Seqs.SortKeepsDistinct | src/mock/report.ts:340 | sorting keeps keys distinct |
| Seqs.Take | src/mock/report.ts:596 | `slice(0, n)` is the prefix of length min(n, length) |
| Seqs.FirstIndex | src/mock/report.ts:538-539 | `map.has(key)` / `map.get(key)` over entries in insertion order, for the day totals here and for the IP totals at line 564: the first position whose key is the one asked for, with no earlier entry having it, or the length when no entry has it |
| Text.TrimStart | src/mock/order.ts:15-16 | removes exactly the leading white space |
| Text.TrimEnd | src/mock/order.ts:15-16 | removes exactly the trailing white space |
| Text.Trim | src/mock/order.ts:15-16 | the result is a middle part of the input with only white space around it, and it neither starts nor ends with white space |
| Text.NoSpaceTrim | src/mock/report.ts:237 | a string without white space is its own trim |
| Text.Includes | src/mock/order.ts:25-27 | `includes` is true exactly when the substring occurs at some position |
| Text.LessIrreflexive | src/mock/order.ts:39 | no string is less than itself |
| Text.LessTransitive | src/mock/order.ts:39 | string `<` is transitive |
| Text.LessTrichotomy | src/mock/report.ts:547 | of two different strings exactly one is less |
| Text.AtMostTransitive | src/mock/order.ts:39 | string `<=` is transitive, so the date range is an interval |
| Numbers.DigitChar | src/mock/order.ts:61 | the character of a digit is a digit with that value |
| Numbers.Digits | src/mock/order.ts:61 | the digits of a number, without leading zeros |
| Numbers.DecimalString | src/mock/order.ts:61 | `String(n)` starts with a digit or a minus sign |
| Numbers.IndexOfDot | src/mock/report.ts:237 | the position of the first '.', or the length |
| Numbers.ParseUnsigned | src/mock/report.ts:237 | digits with an optional fraction, read as their exact decimal value; `Numbers.UnsignedOfDigits` proves it reads `String(n)` back as n |
| Numbers.ParseNumber | src/mock/report.ts:237 | `Number(s)` for decimal numerals, read exactly rather than rounded to a double, None for NaN; `Numbers.ParseDecimalString` proves `Number(String(n))` is n |
| Numbers.DigitsValueOfDigits | src/mock/report.ts:237 | reading back the digits of n gives n |
| Numbers.UnsignedOfDigits | src/mock/report.ts:237 | the digits of n read as an unsigned numeral give n |
| Numbers.ParseDecimalString | src/mock/report.ts:237 | `Number(String(n))` is n |
| Numbers.DecimalStringHasNoSpace | src/mock/report.ts:237 | `String(n)` holds no white space |
| Numbers.DecimalStringInjective | src/mock/order.ts:61 | two integers print the same exactly when they are equal |
| Grouping.IndexOfKey | src/mock/report.ts:321 | `map.get(key)`: the position of the first group with that key, or the length |
| Grouping.KeyFound | src/mock/report.ts:321 | a group with the key is found at or before its position |
| Grouping.AddItem | src/mock/report.ts:319-336 | one `map.get` / `map.set` step; `Grouping.AddItemFound` and `Grouping.AddItemMissing` state both cases |
| Grouping.Groups | src/mock/report.ts:315-338 | the map after all items; `Grouping.GroupsKeys`, `Grouping.GroupsSummarise` and `Grouping.GroupsTotals` state what it holds |
| Grouping.AddItemFound | src/mock/report.ts:322-325 | an item with a known key updates that group's sums in place |
| Grouping.AddItemMissing | src/mock/report.ts:326-335 | an item with a new key adds a group at the end holding just that item |
| Grouping.GroupsSnoc | src/mock/report.ts:317-338 | the map after one more item is one step on the map before it |
| Grouping.KeysFound | src/mock/report.ts:321-325 | taking in an item of a known key keeps one group per key |
| Grouping.KeysMissing | src/mock/report.ts:326-335 | taking in an item of a new key keeps one group per key |
| Grouping.GroupsKeys | src/mock/report.ts:315-338 | the keys are distinct, each group is keyed by its first item, and every item's key has a group |
| Grouping.WithKeySnoc | src/mock/report.ts:319 | one more item joins the items of key k exactly when it has key k |
| Grouping.SummarisesAbsorb | src/mock/report.ts:323-324 | adding an item to a group's sums accounts for that item too |
| Grouping.WithKeyAbsent | src/mock/report.ts:326 | a key no item has selects no items |
| Grouping.SummariseOther | src/mock/report.ts:317-338 | groups of other keys still account for exactly their items |
| Grouping.SummariseAbsorbed | src/mock/report.ts:322-325 | the group of the item's key accounts for its items plus the new one |
| Grouping.SummariseNew | src/mock/report.ts:326-335 | a new group accounts for exactly the one item |
| Grouping.GroupsSummarise | src/mock/report.ts:314-338 | each group holds the first item of its key and the sums of the quantities and subtotals of exactly that key's items |
| Grouping.GroupsTotals | src/mock/report.ts:314-338 | the groups' revenues add up to all subtotals and their quantities to all quantities |
| Reports.StatsRows | src/mock/report.ts:327-335 | one row per group, carrying the first item's identity fields and the group's sums |
| Reports.IndexOfName | src/mock/report.ts:321 | the position of the row for a name, or the length |
| Reports.IndexOfNameOfRows | src/mock/report.ts:321 | looking a name up in the rows finds the same position as in the groups |
| Reports.ProductStats | src/mock/report.ts:314-341 | the product table as a function of the orders; `Reports.ProductStatsSorted`, `Reports.ProductStatsDistinct`, `Reports.ProductStatsRows`, `Reports.ProductStatsCoverNames` and `Reports.ProductStatsTotals` state what it holds |
| Reports.NextStatsFound | src/mock/report.ts:322-325 | a known name adds the item's quantity and subtotal to its row |
| Reports.NextStatsMissing | src/mock/report.ts:326-335 | a new name adds a row with the item's identity fields, quantity and subtotal |
| Reports.StatsStep | src/mock/report.ts:318-337 | one pass of the inner loop on the rows is one step of the grouping |
| Reports.StatsStepFound | src/mock/report.ts:322-325 | the step for a known name agrees with the grouping |
| Reports.StatsStepMissing | src/mock/report.ts:326-335 | the step for a new name agrees with the grouping |
| Reports.StatsRowsUpdate | src/mock/report.ts:323-324 | updating one group updates exactly its row |
| Reports.StatsRowsSnoc | src/mock/report.ts:327 | a new group adds its row at the end |
| Reports.StatsLoopStep | src/mock/report.ts:318-337 | after each item the rows are the table of the items seen so far |
| Reports.BuildProductStats | src/mock/report.ts:314-341 | the loops build exactly `ProductStats(orders)` |
| Reports.Accumulate | src/mock/report.ts:319-336 | one item updates or adds its row as `NextStats` says |
| Reports.AddOrderItems | src/mock/report.ts:318-337 | the inner loop extends the table by one order's items |
| Reports.PrefixSnoc | src/mock/report.ts:318 | one more visited item extends the visited prefix by that item |
| Reports.ProductStatsSorted | src/mock/report.ts:340 | the rows are ordered by revenue, largest first |
| Reports.ProductStatsDistinct | src/mock/report.ts:315-338 | no product name has two rows |
| Reports.ProductStatsRows | src/mock/report.ts:314-338 | each row has the identity fields of the first item of its name, and the sums of quantity and subtotal over exactly that name's items |
| Reports.ProductStatsCoverNames | src/mock/report.ts:317-338 | every product name that occurs in an item has a row |
| Reports.RowSurvivesSort | src/mock/report.ts:340 | a row of the table before the sort is still present after it |
| Reports.StatsRowsSums | src/mock/report.ts:323-334 | the rows' sums are the groups' sums |
| Reports.ProductStatsTotals | src/mock/report.ts:314-341 | the rows' revenues add up to all subtotals and their quantities to all quantities; on consistent orders the revenue is the sum of the order totals |
| Reports.Summarise | src/mock/report.ts:343-348 | the count is the number of orders and the revenue the sum of totals; the mean is 0 for no orders and otherwise revenue divided by count |
| Reports.SummaryMatchesProductStats | src/mock/report.ts:372-387 | on consistent orders the summary's revenue equals the product table's |
| Reports.DaysInMonth | src/mock/report.ts:396 | the Gregorian month length: 31 exactly for the seven long months, 30 exactly for April, June, September and November, 29 exactly for February of a leap year, and otherwise 28 |
| Reports.MonthLength | src/mock/report.ts:396 | `new Date(year, month, 0).getDate()` lies in 28..31 |
| Reports.MonthLengthIsGregorian | src/mock/report.ts:396 | for months 1..12 of a year from 100 on it is the Gregorian length |
| Reports.MonthLengthCarries | src/mock/report.ts:396 | month m + 12 is month m of the next year |
| Reports.TotalBounds | src/mock/report.ts:408-409 | a sum of draws from lo..hi lies between count * lo and count * hi |
| Reports.BuildMonthly | src/mock/report.ts:392-425 | the days are 1..length of the month, the series are the draws, the totals are their sums, and the daily mean times the number of days is the revenue |
| Reports.MonthlyBounds | src/mock/report.ts:402-410 | with the draw ranges, the order total and the daily mean stay within the ranges' bounds |
| Reports.BuildAnnual | src/mock/report.ts:446-459 | the months are 1..12, the series are the draws, the totals are their sums, and twelve times the monthly mean is the revenue |
| Dashboard.NestedQuantitySum | src/mock/report.ts:514-516 | the sum over orders of their item quantities is the sum over all items |
| Dashboard.DashboardTotals | src/mock/report.ts:511-521 | revenue is the sum of order totals, quantity the sum of all item quantities, and the order count the number of orders |
| Dashboard.DayTotals | src/mock/report.ts:528-541 | one entry per key, in key order, holding the total of the orders placed that day |
| Dashboard.TrendTable | src/mock/report.ts:546-547 | the sorted entries are a permutation of the filled map |
| Dashboard.Dedup | src/mock/report.ts:528-533 | the keys of the map after setting each key in turn: no key twice, the same set of keys, kept in order of first setting, never more keys than given, and all of them exactly when no key repeats |
| Dashboard.DedupSnoc | src/mock/report.ts:532 | one more key joins the distinct keys exactly when it is new |
| Dashboard.ZeroStep | src/mock/report.ts:532 | `map.set(key, 0)` appends a zero entry for a new key and leaves the entries of the old keys as they were |
| Dashboard.DayRevenueSnoc | src/mock/report.ts:536-541 | one more order adds its total to its own day only |
| Dashboard.BucketsStep | src/mock/report.ts:537-540 | after each order every entry again holds its day's revenue so far |
| Dashboard.ZeroDays | src/mock/report.ts:528-533 | after `map.set(key, 0)` for each key, the map holds one zero entry per distinct key, in order of first setting |
| Dashboard.AddDayTotals | src/mock/report.ts:536-541 | after the pass every entry holds the revenue of the orders on its day |
| Dashboard.BuildTrend | src/mock/report.ts:524-554 | one label and one value per distinct key: each label is the "MM-DD" of a sorted entry's day and each value that entry's revenue; there are as many entries as keys exactly when no key repeats |
| Dashboard.EarlierDayOrders | src/mock/report.ts:547 | the day comparator is total and transitive |
| Dashboard.TrendAscending | src/mock/report.ts:546-547 | with distinct keys the days run strictly ascending |
| Dashboard.TrendEntries | src/mock/report.ts:536-551 | one entry per key; each entry's value is the revenue of exactly the orders on its day, and every key has an entry |
| Dashboard.TrendIgnoresOtherDays | src/mock/report.ts:538 | orders on days outside the keys change nothing |
| Dashboard.TrendOfKeys | src/mock/report.ts:528-553 | for the keys as given, repeats included: the days run strictly ascending; every key has an entry and every entry's day is a key; each value is the revenue of its day |
| Dashboard.IpEntries | src/mock/report.ts:568-569 | one `{ name, value }` per group: its key and its revenue |
| Dashboard.IpOf | src/mock/report.ts:562 | the IP an item counts under is never empty: an empty IP becomes '未知IP' |
| Dashboard.IndexOfIpOfEntries | src/mock/report.ts:564 | looking an IP up in the entries finds the same position as in the groups |
| Dashboard.NextIpFound | src/mock/report.ts:564 | a known IP adds the revenue to its entry |
| Dashboard.NextIpMissing | src/mock/report.ts:564 | a new IP adds an entry at the end with the revenue |
| Dashboard.IpEntriesUpdate | src/mock/report.ts:564 | updating one group updates exactly its entry |
| Dashboard.IpEntriesSnoc | src/mock/report.ts:564 | a new group adds its entry at the end |
| Dashboard.IpStep | src/mock/report.ts:561-565 | one pass of the inner loop is one step of the grouping by IP |
| Dashboard.IpLoopStep | src/mock/report.ts:560-566 | after each item the entries are the table of the items seen so far |
| Dashboard.AccumulateIp | src/mock/report.ts:562-564 | an empty IP counts as the unknown IP, and the item's subtotal goes to that IP's entry |
| Dashboard.AddIpRevenues | src/mock/report.ts:561-565 | the inner loop extends the entries by one order's items |
| Dashboard.BuildRevenueByIp | src/mock/report.ts:557-571 | the loops build exactly `RevenueByIp(orders)` |
| Dashboard.RevenueByIpShape | src/mock/report.ts:562-570 | the entries are ordered by value, largest first; no name occurs twice, and no name is empty |
| Dashboard.RevenueByIpEntries | src/mock/report.ts:560-569 | each entry's value is the sum of the subtotals of exactly the items with that IP, an empty IP counting as unknown |
| Dashboard.RevenueByIpCoversItems | src/mock/report.ts:560-566 | every item's IP, or the unknown bucket, has an entry |
| Dashboard.EntrySurvivesSort | src/mock/report.ts:570 | an entry of the revenue-by-IP table before the sort is still present after it |
| Dashboard.IpEntriesSum | src/mock/report.ts:568-569 | the entries' values add up to the groups' revenues |
| Dashboard.RevenueByIpTotal | src/mock/report.ts:557-571 | the values add up to the subtotals of all order lines |
| Dashboard.RevenueIsConserved | src/mock/report.ts:600-617 | on consistent orders the dashboard's revenue equals the sum of the IP values and of the product table's revenues |
| Dashboard.RevenueByIp | src/mock/report.ts:557-571 | revenue by IP as a function of the orders; `Dashboard.RevenueByIpShape`, `Dashboard.RevenueByIpEntries` and `Dashboard.RevenueByIpTotal` state what it holds |
| Dashboard.RowsOf | src/mock/report.ts:579-590 | one row per item, each with the order's date |
| Dashboard.AllRows | src/mock/report.ts:577-591 | every order line as a row, order by order; `Dashboard.AllRowsLength` and `Dashboard.AllRowsFromOrders` state what it holds |
| Dashboard.RecentRows | src/mock/report.ts:594-596 | the first 50 rows, latest date first; `Dashboard.RecentRowsLength`, `Dashboard.RecentRowsNewest` and `Dashboard.RecentRowsFromOrders` state what it holds |
| Dashboard.AppendRows | src/mock/report.ts:579-590 | the inner loop appends exactly the order's rows |
| Dashboard.AllRowsAppend | src/mock/report.ts:577-591 | the rows of two order lists concatenated are the rows of each, in order |
| Dashboard.AllRowsPrefix | src/mock/report.ts:577-591 | visiting one more order appends exactly its rows |
| Dashboard.BuildOrderRows | src/mock/report.ts:574-597 | the loops, the sort and the cut build exactly `RecentRows(orders)` |
| Dashboard.AllRowsLength | src/mock/report.ts:577-591 | there are as many rows as order lines |
| Dashboard.AllRowsFromOrders | src/mock/report.ts:577-591 | every row is the row of some item of some order, dated by that order |
| Dashboard.LaterFirstOrders | src/mock/report.ts:595 | the row comparator is total and transitive |
| Dashboard.NewestFirst | src/mock/report.ts:595 | the sorted rows are a permutation of all rows, latest date first |
| Dashboard.RecentRowsLength | src/mock/report.ts:594-596 | the table holds min(50, number of order lines) rows, and they are the first of the sorted rows |
| Dashboard.RecentRowsNewest | src/mock/report.ts:594-596 | the table runs latest date first, and no row left out is later than one shown |
| Dashboard.RecentRowsFromOrders | src/mock/report.ts:574-597 | every row shown is the row of some order line, with its order's date |
| Dashboard.BuildOverview | src/mock/report.ts:600-618 | the totals; trend values that are the day revenues of the sorted distinct keys, one per key exactly when no key repeats; the revenue by IP; and the newest 50 rows |
| Catalog.IdentitiesFrom | src/mock/product.ts:56-64 | entry i has id 1001 + offset + i, the i-th name, the round-robin IP, category and scale, and status true |
| Catalog.DataList | src/mock/base.ts:35-42 | the initial identity table; `Catalog.DataListShape` states its entries |
| Catalog.DataListShape | src/mock/base.ts:35-42 | the initial table has twelve entries with ids 1001..1012 in order and the figure names |
| Catalog.Priced | src/mock/product.ts:89-103 | one product per identity, in order, with identity unchanged and the drawn price and stock |
| Catalog.NextId | src/mock/product.ts:124-126 | the head's id plus one, or 1001 for an empty table; `Catalog.NextIdFresh` and `Catalog.FirstAddDuplicates` state when it is fresh and when not |
| Catalog.CountedId | src/mock/report.ts:63 | the table's length plus 1001; `Catalog.CountedIdFresh` states when it is fresh |
| Catalog.FirstAddDuplicates | src/mock/product.ts:124-138 | on the initial table the new id is 1002, the id of the second entry, so the table then holds a duplicate id |
| Catalog.NextIdFresh | src/mock/product.ts:124-126 | when the head holds the largest id, the new id exceeds every id and the new head again holds the largest |
| Catalog.CountedIdFresh | src/mock/report.ts:62-71 | with every id below 1001 + length, the counted id is fresh and the bound holds again after the addition |
| Catalog.DataListIdsBelowCount | src/mock/report.ts:26-33 | the initial table meets the counted rule's bound and has distinct ids |
| Catalog.Inventory.constructor | src/mock/product.ts:56-64 | the inventory starts with the given identity table |
| Catalog.Inventory.Listing | src/mock/product.ts:89-103 | one product per identity, in table order, with identity fields unchanged |
| Catalog.Inventory.Add | src/mock/product.ts:121-152 | the table becomes the new identity, with the head-plus-one id, followed by the old table; the reply is that identity with a price and a stock |
| Catalog.Inventory.AddCounted | src/mock/report.ts:59-78 | the table becomes the new identity, with id 1001 + old length, followed by the old table; the reply carries a price and no stock |

## Left out

- Random generation (the order templates, `Mock.Random.integer` for prices, stocks and every series) and route registration are not modelled. The generated orders and the draws are parameters.
- The clock is not modelled. The seven day keys of the trend are parameters, and so is the "today" they come from.
- The quarterly report (`src/mock/report.ts:429-442`) is left out: it consists only of random draws.
- The seven-day trend of the daily report (`src/mock/report.ts:351-368`) is left out: it consists only of clock labels and random draws.
- `src/mock/utils.ts` is not part of this model. Query parameters arrive already parsed. Each is either absent or a string, except the list endpoint's page and pageSize, which arrive as integers (see the QueryEngine.Query line).
- JSON request bodies are not modelled. Their fields arrive already parsed.
- Object identity is not modelled: the handlers return the stored order object itself, and the model returns its value. The same holds for the two order lists, which are aliases.
- `console.log` calls are not modelled.
- Message texts are not modelled; a reply is its status code and data.
- The `/api/config/options` endpoints return constant lists. Only the lists are modelled (`Catalog.IpList`, `Catalog.CategoryList`, `Catalog.ScaleList`).
- Strings are sequences of code points. JavaScript compares and slices UTF-16 code units; the two differ only outside the Basic Multilingual Plane.
- QueryEngine.Query: page and pageSize are integers, and it requires page >= 1 and pageSize >= 1. `Number()` of a non-numeric page gives NaN, and a zero or negative page gives a negative `slice` start, which counts from the end. A fractional page or pageSize (such as page 1.5, which `slice` truncates to `slice(5, 15)`) cannot be expressed. None of these cases is modelled.
- OrderCollection.DetailByNumber: `Number()` is modelled for decimal numerals only. Hexadecimal, binary and octal literals, exponents and `Infinity` are read as not a number, where JavaScript reads them as numbers. The numeral is also compared as its exact value, so a numeral that `Number()` rounds onto an existing id (such as "1.0000000000000001", which is 1 as a double) finds no order in the model.
- Numbers.ParseNumber: reads a decimal numeral as its exact value, where `Number()` rounds it to the nearest IEEE double. The two agree on integers written with at most 15 digits and no fraction, which covers every `String(n)` of an order id; they differ on longer numerals such as "1.0000000000000001" and on integers beyond 2^53.
- OrderCollection.IdKey: a request id is a number, a string or missing. Other JSON values (`null`, booleans, objects) are not modelled.
- OrderCollection.OrderStore.UpdateStatus: the model only assigns one of the five listed statuses. JavaScript assigns whatever the body holds, including `undefined`.
- Reports.BuildProductStats: `avgPrice` is not modelled. It is a floating-point running mean with no guard against a zero quantity.
- Summaries (`avgOrderValue`, `avgDailyRevenue`, `avgMonthlyRevenue`): these averages are stated over exact reals, not IEEE doubles.
- Reports.BuildMonthly: year and month are integers, and the `Number()` of a non-numeric or fractional year or month is not modelled. The month length follows what `new Date(year, month, 0)` computes: months outside 1..12 carry into the year, and years 0..99 mean 1900..1999. `Reports.MonthLengthIsGregorian` shows that it is the Gregorian length for 1..12.
- The `item.subtotal ?? item.price * item.quantity` fallback is not modelled. Revenue is taken as `subtotal`, which initialisation always sets, so the fallback never applies.
- Dashboard.RecentRows: the order among rows with the same date is not stated. The comparator never returns 0, so that order depends on the engine's sort. The model uses a stable sort only so that the result is a definite sequence.
- Dashboard.BuildTrend: the keys are taken as given. The clock steps back in local time but prints UTC dates, so across a daylight-saving change two keys can coincide; the model handles such a repeat as the `Map` does. The keys are not checked to be well-formed "YYYY-MM-DD" dates.
- Money is in whole units with unbounded integers. No amount the generator can produce comes near the 2^53 limit of doubles.
- Other parts of the code are not part of this model:
  - the UI stores, the router and the type declarations;
  - the purely random endpoints of `src/mock/index.ts`;
  - the `'bank'` pay method that only the type declarations list.
