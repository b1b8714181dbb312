/**
 * The accounts screen: stock valuation over a date range and the
 * revenue/cost metrics.
 *
 * Stock rows carry the stock count recorded at an instant; a group is the
 * rows of one (item, branch) pair.  The value of a range's opening stock is
 * the count just before the range, that of its closing stock the count at
 * its end, each priced at the item's reference price.
 */
module Accounts {
  import opened Common
  import opened Calendar

  // ------------------------------------------------------------------
  // Rows as fetched.
  // ------------------------------------------------------------------

  /** A selected date range; both bounds are optional (no range at all is `DateRange(None, None)`). */
  datatype DateRange = DateRange(from: Option<int>, to: Option<int>)

  /**
   * One row of a stock or movement table.  `item_id` is the row's
   * `product_id` or `material_id`; `yield_quantity` is only present on
   * production rows.
   */
  datatype StockRecord = StockRecord(
    item_id: Id,
    branch_id: Id,
    created_at: Option<int>,
    quantity: Option<real>,
    opening_stock: Option<real>,
    closing_stock: Option<real>,
    yield_quantity: Option<real>,
    cost: Option<real>)

  datatype Product = Product(id: Id, price: Option<real>, unit_cost: Option<real>)
  datatype Material = Material(id: Id, unit_price: Option<real>)

  // ------------------------------------------------------------------
  // applyDateFilter: the created_at window the queries impose.
  // ------------------------------------------------------------------

  /** `a ?? b` on optional values. */
  function Coalesce<T>(a: Option<T>, b: Option<T>): Option<T> { if a.Some? then a else b }

  /**
   * Whether a row created at `t` passes the query's date filter: with a
   * `from` bound the row must lie between the start of `from`'s day and the
   * end of `to`'s day (of `from`'s day when `to` is absent); without one the
   * query is unchanged.  Rows without a timestamp never match a bound.
   */
  predicate InFetchWindow(t: Option<int>, range: DateRange)
  {
    range.from.None?
    || (t.Some? && StartOfDay(range.from.value) <= t.value
        && t.value <= EndOfDay(Coalesce(range.to, range.from).value))
  }

  function ApplyDateFilter<T(==, !new)>(rows: seq<T>, created: T -> Option<int>, range: DateRange): seq<T>
  {
    Filter(rows, (r: T) => InFetchWindow(created(r), range))
  }

  /**
   * The fetch window in whole days: with `from` and `to` it keeps the days
   * from `from`'s to `to`'s, with `from` alone exactly `from`'s day, and
   * without `from` every row.
   */
  lemma {:induction false} ApplyDateFilterKeepsDays<T(!new)>(rows: seq<T>, created: T -> Option<int>, range: DateRange)
    ensures range.from.None? ==> ApplyDateFilter(rows, created, range) == rows
    ensures forall r ::
      r in ApplyDateFilter(rows, created, range) <==>
        r in rows &&
        (range.from.None? ||
          (created(r).Some? &&
           (range.to.Some? ==> DayOf(range.from.value) <= DayOf(created(r).value) <= DayOf(range.to.value)) &&
           (range.to.None? ==> SameDay(created(r).value, range.from.value))))
  {
    if range.from.None? {
      FilterAll(rows, (r: T) => InFetchWindow(created(r), range));
      assert ApplyDateFilter(rows, created, range) == rows;
    }
    forall r | r in rows && created(r).Some? && range.from.Some?
      ensures InFetchWindow(created(r), range) <==>
        (range.to.Some? ==> DayOf(range.from.value) <= DayOf(created(r).value) <= DayOf(range.to.value)) &&
        (range.to.None? ==> SameDay(created(r).value, range.from.value))
    {
      var t := created(r).value;
      InDayRangeByDays(t, range.from.value, Coalesce(range.to, range.from).value);
      SameDayIsDayWindow(t, range.from.value);
    }
  }

  /** `if (selectedBranch !== "all") q = q.eq("branch_id", selectedBranch)`. */
  predicate InBranchScope(branch_id: Id, selectedBranch: Id)
  {
    selectedBranch == "all" || branch_id == selectedBranch
  }

  // ------------------------------------------------------------------
  // sortByDateDesc(...)[0] and sortByDateAsc(...)[0].
  // ------------------------------------------------------------------

  /**
   * `a` is not later than `b`; a row without a timestamp sorts as minus
   * infinity, below every dated row.
   */
  predicate NotLater(a: StockRecord, b: StockRecord)
  {
    a.created_at.None? || (b.created_at.Some? && a.created_at.value <= b.created_at.value)
  }

  /** The head of the rows sorted by date, latest first. */
  function LatestIndex(rs: seq<StockRecord>): (k: nat)
    requires |rs| > 0
    ensures k < |rs|
    ensures forall j :: 0 <= j < |rs| ==> NotLater(rs[j], rs[k])
  {
    if |rs| == 1 then 0
    else
      var k0 := LatestIndex(rs[..|rs| - 1]);
      assert forall j :: 0 <= j < |rs| - 1 ==> rs[..|rs| - 1][j] == rs[j];
      if NotLater(rs[|rs| - 1], rs[k0]) then k0 else |rs| - 1
  }

  /** The head of the rows sorted by date, earliest first. */
  function EarliestIndex(rs: seq<StockRecord>): (k: nat)
    requires |rs| > 0
    ensures k < |rs|
    ensures forall j :: 0 <= j < |rs| ==> NotLater(rs[k], rs[j])
  {
    if |rs| == 1 then 0
    else
      var k0 := EarliestIndex(rs[..|rs| - 1]);
      assert forall j :: 0 <= j < |rs| - 1 ==> rs[..|rs| - 1][j] == rs[j];
      if NotLater(rs[k0], rs[|rs| - 1]) then k0 else |rs| - 1
  }

  // ------------------------------------------------------------------
  // getStockAtDate.
  // ------------------------------------------------------------------

  predicate Dated(r: StockRecord) { r.created_at.Some? }
  predicate DatedBefore(r: StockRecord, t: int) { r.created_at.Some? && r.created_at.value < t }
  predicate DatedOnOrBefore(r: StockRecord, t: int) { r.created_at.Some? && r.created_at.value <= t }
  predicate DatedOnOrAfter(r: StockRecord, t: int) { r.created_at.Some? && r.created_at.value >= t }

  function Latest(rs: seq<StockRecord>): StockRecord
    requires |rs| > 0
  {
    rs[LatestIndex(rs)]
  }

  /**
   * The stock count of a group at `target`.  With no target, the count of
   * the latest row; in closing mode, the count of the latest row at or
   * before the target; in opening mode, the count of the latest row
   * strictly before it, or else the opening stock (or count) of the
   * earliest row at or after it.
   */
  function StockAt(records: seq<StockRecord>, target: Option<int>, isClosing: bool): real
  {
    if |records| == 0 then 0.0
    else if target.None? then OrZero(Latest(records).quantity)
    else if isClosing then
      var upTo := Filter(records, (r: StockRecord) => DatedOnOrBefore(r, target.value));
      if |upTo| == 0 then 0.0 else OrZero(Latest(upTo).quantity)
    else
      var before := Filter(records, (r: StockRecord) => DatedBefore(r, target.value));
      if |before| == 0 then
        var onOrAfter := Filter(records, (r: StockRecord) => DatedOnOrAfter(r, target.value));
        if |onOrAfter| > 0 then
          var first := onOrAfter[EarliestIndex(onOrAfter)];
          OrZero(Coalesce(first.opening_stock, first.quantity))
        else 0.0
      else OrZero(Latest(before).quantity)
  }

  /** `r` is a row of `records` satisfying `p`, and no row satisfying `p` is later. */
  predicate LatestAmong(records: seq<StockRecord>, p: StockRecord -> bool, r: StockRecord)
  {
    r in records && p(r) && forall x :: x in records && p(x) ==> NotLater(x, r)
  }

  /** `r` is a row of `records` satisfying `p`, and no row satisfying `p` is earlier. */
  predicate EarliestAmong(records: seq<StockRecord>, p: StockRecord -> bool, r: StockRecord)
  {
    r in records && p(r) && forall x :: x in records && p(x) ==> NotLater(r, x)
  }

  lemma LatestOfFilter(records: seq<StockRecord>, p: StockRecord -> bool)
    requires |Filter(records, p)| > 0
    ensures LatestAmong(records, p, Latest(Filter(records, p)))
  {
    var f := Filter(records, p);
    var r := Latest(f);
    forall x | x in records && p(x) ensures NotLater(x, r) {
      var j :| 0 <= j < |f| && f[j] == x;
    }
  }

  lemma EarliestOfFilter(records: seq<StockRecord>, p: StockRecord -> bool)
    requires |Filter(records, p)| > 0
    ensures EarliestAmong(records, p, Filter(records, p)[EarliestIndex(Filter(records, p))])
  {
    var f := Filter(records, p);
    var r := f[EarliestIndex(f)];
    forall x | x in records && p(x) ensures NotLater(r, x) {
      var j :| 0 <= j < |f| && f[j] == x;
    }
  }

  lemma FilterEmpty(records: seq<StockRecord>, p: StockRecord -> bool)
    requires |Filter(records, p)| == 0
    ensures forall x :: x in records ==> !p(x)
  {
  }

  /**
   * Without a target, the result is the count of a most recently dated row
   * (undated rows rank below every dated one), and 0 for an empty group.
   */
  lemma StockAtWithoutTarget(records: seq<StockRecord>, isClosing: bool)
    ensures |records| == 0 ==> StockAt(records, None, isClosing) == 0.0
    ensures |records| > 0 ==>
      exists r :: LatestAmong(records, (x: StockRecord) => true, r) && StockAt(records, None, isClosing) == OrZero(r.quantity)
  {
    if |records| > 0 {
      var r := Latest(records);
      assert LatestAmong(records, (x: StockRecord) => true, r) by {
        forall x | x in records ensures NotLater(x, r) {
          var j :| 0 <= j < |records| && records[j] == x;
        }
      }
    }
  }

  /**
   * Closing mode: the count of a latest row dated at or before the target,
   * and 0 when there is no such row.
   */
  lemma ClosingStockAt(records: seq<StockRecord>, target: int)
    ensures (forall x :: x in records ==> !DatedOnOrBefore(x, target)) ==> StockAt(records, Some(target), true) == 0.0
    ensures (exists x :: x in records && DatedOnOrBefore(x, target)) ==>
      exists r :: LatestAmong(records, (x: StockRecord) => DatedOnOrBefore(x, target), r)
               && StockAt(records, Some(target), true) == OrZero(r.quantity)
  {
    var p := (x: StockRecord) => DatedOnOrBefore(x, target);
    if |records| > 0 {
      if |Filter(records, p)| == 0 {
        FilterEmpty(records, p);
      } else {
        LatestOfFilter(records, p);
      }
    }
  }

  /**
   * Opening mode: the count of a latest row dated strictly before the
   * target; with none, `opening_stock ?? quantity` of an earliest row dated
   * at or after it; with neither, 0.
   */
  lemma OpeningStockAt(records: seq<StockRecord>, target: int)
    ensures (exists x :: x in records && DatedBefore(x, target)) ==>
      exists r :: LatestAmong(records, (x: StockRecord) => DatedBefore(x, target), r)
               && StockAt(records, Some(target), false) == OrZero(r.quantity)
    ensures (forall x :: x in records ==> !DatedBefore(x, target)) && (exists x :: x in records && DatedOnOrAfter(x, target)) ==>
      exists r :: EarliestAmong(records, (x: StockRecord) => DatedOnOrAfter(x, target), r)
               && StockAt(records, Some(target), false) == OrZero(Coalesce(r.opening_stock, r.quantity))
    ensures (forall x :: x in records ==> !Dated(x)) ==> StockAt(records, Some(target), false) == 0.0
  {
    var before := (x: StockRecord) => DatedBefore(x, target);
    var after := (x: StockRecord) => DatedOnOrAfter(x, target);
    if |records| > 0 {
      if |Filter(records, before)| == 0 {
        FilterEmpty(records, before);
        if |Filter(records, after)| > 0 {
          EarliestOfFilter(records, after);
        } else {
          FilterEmpty(records, after);
        }
      } else {
        LatestOfFilter(records, before);
      }
    }
  }

  // ------------------------------------------------------------------
  // getOpeningStockForGroup / getClosingStockForGroup.
  // ------------------------------------------------------------------

  /** Opening looks before the start of the day preceding `from`; no `from`, no target. */
  function OpeningTarget(range: DateRange): (t: Option<int>)
    ensures range.from.Some? <==> t.Some?
    ensures t.Some? ==> t.value == StartOfDay(t.value) && DayOf(t.value) == DayOf(range.from.value) - 1
  {
    if range.from.Some? then
      var t := StartOfDay(range.from.value) - DayMs;
      assert t / DayMs == DayOf(range.from.value) - 1;
      Some(t)
    else None
  }

  /** Closing looks at the last millisecond of `to`'s day; no `to`, no target. */
  function ClosingTarget(range: DateRange): (t: Option<int>)
    ensures range.to.Some? <==> t.Some?
    ensures t.Some? ==> t.value == EndOfDay(range.to.value) && DayOf(t.value) == DayOf(range.to.value)
  {
    if range.to.Some? then
      var t := EndOfDay(range.to.value);
      assert DayOf(t) == DayOf(range.to.value) by { SameDayIsDayWindow(t, range.to.value); }
      Some(t)
    else None
  }

  function OpeningStockForGroup(records: seq<StockRecord>, range: DateRange): real
  {
    if |records| == 0 then 0.0 else StockAt(records, OpeningTarget(range), false)
  }

  function ClosingStockForGroup(records: seq<StockRecord>, range: DateRange): real
  {
    if |records| == 0 then 0.0 else StockAt(records, ClosingTarget(range), true)
  }

  /**
   * On rows fetched through the same range's date filter, every row lies on
   * or after `from`'s day, so nothing precedes the opening target: the
   * opening stock is `opening_stock ?? quantity` of an earliest row.
   */
  lemma OpeningOfFetchedGroup(records: seq<StockRecord>, range: DateRange)
    requires range.from.Some? && |records| > 0
    requires forall r :: r in records ==> InFetchWindow(r.created_at, range)
    ensures exists r :: EarliestAmong(records, (x: StockRecord) => DatedOnOrAfter(x, OpeningTarget(range).value), r)
                     && OpeningStockForGroup(records, range) == OrZero(Coalesce(r.opening_stock, r.quantity))
  {
    var t := OpeningTarget(range).value;
    assert forall r :: r in records ==> DatedOnOrAfter(r, t) && !DatedBefore(r, t);
    OpeningStockAt(records, t);
  }

  // ------------------------------------------------------------------
  // Price lookups.
  // ------------------------------------------------------------------

  /** The test of `products.find(...)` and `materials.find(...)`: `String(x.id) === String(id)`. */
  function ProductWithId(id: Id): Product -> bool { (x: Product) => x.id == id }

  function MaterialWithId(id: Id): Material -> bool { (x: Material) => x.id == id }

  /** getProductPrice: the selling `price` of the first product with the id, else 0. */
  function ProductPrice(products: seq<Product>, id: Id): (p: real)
    ensures !Truthy(id) ==> p == 0.0
    ensures (forall j :: 0 <= j < |products| ==> products[j].id != id) ==> p == 0.0
    ensures forall i ::
      (0 <= i < |products| && products[i].id == id && Truthy(id) && forall j :: 0 <= j < i ==> products[j].id != id)
      ==> p == OrZero(products[i].price)
  {
    if !Truthy(id) then 0.0
    else
      var k := FindFirst(products, ProductWithId(id));
      if k.Some? then OrZero(products[k.value].price) else 0.0
  }

  /** getMaterialPrice: the `unit_price` of the first material with the id, else 0. */
  function MaterialPrice(materials: seq<Material>, id: Id): (p: real)
    ensures !Truthy(id) ==> p == 0.0
    ensures (forall j :: 0 <= j < |materials| ==> materials[j].id != id) ==> p == 0.0
    ensures forall i ::
      (0 <= i < |materials| && materials[i].id == id && Truthy(id) && forall j :: 0 <= j < i ==> materials[j].id != id)
      ==> p == OrZero(materials[i].unit_price)
  {
    if !Truthy(id) then 0.0
    else
      var k := FindFirst(materials, MaterialWithId(id));
      if k.Some? then OrZero(materials[k.value].unit_price) else 0.0
  }

  // ------------------------------------------------------------------
  // stockMetricsValue: grouping by (item, branch) and pricing.
  // ------------------------------------------------------------------

  datatype Pair = Pair(item_id: Id, branch_id: Id)

  function PairOf(r: StockRecord): Pair { Pair(r.item_id, r.branch_id) }

  /** `Array.from(new Set(rows.map(pairKey)))`: the distinct pairs in first-seen order. */
  function DistinctPairs(rows: seq<StockRecord>): (ps: seq<Pair>)
    ensures forall i, j :: 0 <= i < j < |ps| ==> ps[i] != ps[j]
    ensures forall p :: p in ps <==> exists r :: r in rows && PairOf(r) == p
  {
    if |rows| == 0 then []
    else
      var init := rows[..|rows| - 1];
      var last := rows[|rows| - 1];
      var ps0 := DistinctPairs(init);
      assert forall r :: r in rows <==> r in init || r == last;
      if PairOf(last) in ps0 then ps0 else ps0 + [PairOf(last)]
  }

  function InBranch(b: Id): Pair -> bool { (p: Pair) => p.branch_id == b }
  function NotInBranch(b: Id): Pair -> bool { (p: Pair) => !(p.branch_id == b) }

  /** The pairs restricted to the selected branch unless it is "all". */
  function ScopePairs(ps: seq<Pair>, selectedBranch: Id): seq<Pair>
  {
    if selectedBranch == "all" then ps else Filter(ps, InBranch(selectedBranch))
  }

  function InGroup(p: Pair): StockRecord -> bool { (r: StockRecord) => PairOf(r) == p }

  /** The rows of one (item, branch) group, in fetch order. */
  function Group(rows: seq<StockRecord>, p: Pair): seq<StockRecord>
  {
    Filter(rows, InGroup(p))
  }

  function GroupValue(rows: seq<StockRecord>, p: Pair, range: DateRange, isClosing: bool, price: Id -> real): real
  {
    (if isClosing then ClosingStockForGroup(Group(rows, p), range) else OpeningStockForGroup(Group(rows, p), range))
      * price(p.item_id)
  }

  function GroupValueOf(rows: seq<StockRecord>, range: DateRange, isClosing: bool, price: Id -> real): Pair -> real
  {
    (p: Pair) => GroupValue(rows, p, range, isClosing, price)
  }

  /** The priced opening (or closing) value of every group in branch scope. */
  function PairsValue(rows: seq<StockRecord>, range: DateRange, isClosing: bool, selectedBranch: Id, price: Id -> real): real
  {
    Sum(ScopePairs(DistinctPairs(rows), selectedBranch), GroupValueOf(rows, range, isClosing, price))
  }

  /**
   * The value over all branches is the selected branch's value plus the
   * value of every other branch's groups.
   */
  lemma AllBranchesSplit(rows: seq<StockRecord>, range: DateRange, isClosing: bool, b: Id, price: Id -> real)
    requires b != "all"
    ensures PairsValue(rows, range, isClosing, "all", price)
         == PairsValue(rows, range, isClosing, b, price)
          + Sum(Filter(DistinctPairs(rows), NotInBranch(b)), GroupValueOf(rows, range, isClosing, price))
  {
    SumFilterSplit(DistinctPairs(rows), InBranch(b), NotInBranch(b), GroupValueOf(rows, range, isClosing, price));
  }

  /** The loop `pairs.forEach(({id, branch}) => total += value(group) * price(id))`. */
  method SumPairs(rows: seq<StockRecord>, pairs: seq<Pair>, range: DateRange, isClosing: bool, price: Id -> real)
    returns (total: real)
    ensures total == Sum(pairs, GroupValueOf(rows, range, isClosing, price))
  {
    total := 0.0;
    var i := 0;
    while i < |pairs|
      invariant 0 <= i <= |pairs|
      invariant total == Sum(pairs[..i], GroupValueOf(rows, range, isClosing, price))
    {
      var value := PairValue(rows, pairs[i], range, isClosing, price);
      SumSnoc(pairs, i, GroupValueOf(rows, range, isClosing, price));
      total := total + value;
      i := i + 1;
    }
    assert pairs[..i] == pairs;
  }

  /** One pair's term of the loop: the group's opening (or closing) count times the item's price. */
  method PairValue(rows: seq<StockRecord>, p: Pair, range: DateRange, isClosing: bool, price: Id -> real)
    returns (value: real)
    ensures value == GroupValueOf(rows, range, isClosing, price)(p)
  {
    var g := Group(rows, p);
    var stock := if isClosing then ClosingStockForGroup(g, range) else OpeningStockForGroup(g, range);
    value := stock * price(p.item_id);
  }

  /**
   * The per-row inclusion test of the movement sums:
   * `fromDate && toDate ? isInRange : fromDate ? isOnDate : true`.
   */
  predicate Included(t: Option<int>, fromDate: Option<int>, toDate: Option<int>)
  {
    if fromDate.Some? && toDate.Some? then t.Some? && InDayRange(t.value, fromDate.value, toDate.value)
    else if fromDate.Some? then t.Some? && SameDay(t.value, fromDate.value)
    else true
  }

  /** On this screen `toDate` is `to`, or `from` when `to` is absent. */
  function ToDate(range: DateRange): Option<int> { Coalesce(range.to, range.from) }

  /** The client-side inclusion test selects exactly the rows the fetch window selects. */
  lemma IncludedIsFetchWindow(t: Option<int>, range: DateRange)
    ensures Included(t, range.from, ToDate(range)) <==> InFetchWindow(t, range)
  {
  }

  /** A movement sum: each included row's quantity priced at its item's price. */
  function FlowValue(rows: seq<StockRecord>, fromDate: Option<int>, toDate: Option<int>,
                     qty: StockRecord -> real, price: Id -> real): real
  {
    Sum(rows, (r: StockRecord) => if Included(r.created_at, fromDate, toDate) then qty(r) * price(r.item_id) else 0.0)
  }

  function Quantity(r: StockRecord): real { OrZero(r.quantity) }

  /** Production rows count `yield ?? quantity ?? 0`. */
  function Produced(r: StockRecord): real { OrZero(Coalesce(r.yield_quantity, r.quantity)) }

  /** The rows a re-filter keeps have, in total, the value the guarded sum gives. */
  lemma FlowValueOfFetchedRows(rows: seq<StockRecord>, range: DateRange, qty: StockRecord -> real, price: Id -> real)
    requires forall r :: r in rows ==> InFetchWindow(r.created_at, range)
    ensures FlowValue(rows, range.from, ToDate(range), qty, price) == Sum(rows, (r: StockRecord) => qty(r) * price(r.item_id))
  {
    SumCongruent(rows,
      (r: StockRecord) => if Included(r.created_at, range.from, ToDate(range)) then qty(r) * price(r.item_id) else 0.0,
      (r: StockRecord) => qty(r) * price(r.item_id));
  }

  /** The tables feeding the valuation, as fetched for the range and branch. */
  datatype StockTables = StockTables(
    productInventory: seq<StockRecord>,
    productClosingStock: seq<StockRecord>,
    productDamages: seq<StockRecord>,
    productTransfersIn: seq<StockRecord>,
    production: seq<StockRecord>,
    productTransfersOut: seq<StockRecord>,
    materialClosingStock: seq<StockRecord>,
    inventory: seq<StockRecord>,
    damagedMaterials: seq<StockRecord>,
    materialTransfersIn: seq<StockRecord>,
    procurementSupplied: seq<StockRecord>,
    materialTransfersOut: seq<StockRecord>)

  datatype StockValues = StockValues(opening: real, closing: real, damages: real, stockIn: real, transfersOut: real)

  datatype StockMetrics = StockMetrics(material: StockValues, product: StockValues, total: StockValues)

  function Plus(a: StockValues, b: StockValues): StockValues
  {
    StockValues(a.opening + b.opening, a.closing + b.closing, a.damages + b.damages,
                a.stockIn + b.stockIn, a.transfersOut + b.transfersOut)
  }

  /** The product side of the valuation. */
  function ProductValues(t: StockTables, range: DateRange, selectedBranch: Id, products: seq<Product>): StockValues
  {
    var price := (id: Id) => ProductPrice(products, id);
    var f, to := range.from, ToDate(range);
    StockValues(
      PairsValue(t.productInventory, range, false, selectedBranch, price),
      PairsValue(t.productClosingStock, range, true, selectedBranch, price),
      FlowValue(t.productDamages, f, to, Quantity, price),
      FlowValue(t.productInventory, f, to, Quantity, price)
        + FlowValue(t.productTransfersIn, f, to, Quantity, price)
        + FlowValue(t.production, f, to, Produced, price),
      FlowValue(t.productTransfersOut, f, to, Quantity, price))
  }

  /** The material side of the valuation. */
  function MaterialValues(t: StockTables, range: DateRange, selectedBranch: Id, materials: seq<Material>): StockValues
  {
    var price := (id: Id) => MaterialPrice(materials, id);
    var f, to := range.from, ToDate(range);
    StockValues(
      PairsValue(t.inventory, range, false, selectedBranch, price),
      PairsValue(t.materialClosingStock, range, true, selectedBranch, price),
      FlowValue(t.damagedMaterials, f, to, Quantity, price),
      FlowValue(t.inventory, f, to, Quantity, price)
        + FlowValue(t.materialTransfersIn, f, to, Quantity, price)
        + FlowValue(t.procurementSupplied, f, to, Quantity, price),
      FlowValue(t.materialTransfersOut, f, to, Quantity, price))
  }

  /**
   * stockMetricsValue: the opening and closing loops over the distinct
   * pairs, the movement sums, and each total as material plus product.
   */
  method StockMetricsValue(t: StockTables, range: DateRange, selectedBranch: Id,
                           products: seq<Product>, materials: seq<Material>)
    returns (v: StockMetrics)
    ensures v.product == ProductValues(t, range, selectedBranch, products)
    ensures v.material == MaterialValues(t, range, selectedBranch, materials)
    ensures v.total == Plus(v.material, v.product)
  {
    var productPrice := (id: Id) => ProductPrice(products, id);
    var materialPrice := (id: Id) => MaterialPrice(materials, id);
    var f, to := range.from, ToDate(range);

    var openingProduct := SumPairs(t.productInventory, ScopePairs(DistinctPairs(t.productInventory), selectedBranch),
                                   range, false, productPrice);
    var closingProduct := SumPairs(t.productClosingStock, ScopePairs(DistinctPairs(t.productClosingStock), selectedBranch),
                                   range, true, productPrice);
    var product := StockValues(
      openingProduct,
      closingProduct,
      FlowValue(t.productDamages, f, to, Quantity, productPrice),
      FlowValue(t.productInventory, f, to, Quantity, productPrice)
        + FlowValue(t.productTransfersIn, f, to, Quantity, productPrice)
        + FlowValue(t.production, f, to, Produced, productPrice),
      FlowValue(t.productTransfersOut, f, to, Quantity, productPrice));

    var openingMaterial := SumPairs(t.inventory, ScopePairs(DistinctPairs(t.inventory), selectedBranch),
                                    range, false, materialPrice);
    var closingMaterial := SumPairs(t.materialClosingStock, ScopePairs(DistinctPairs(t.materialClosingStock), selectedBranch),
                                    range, true, materialPrice);
    var material := StockValues(
      openingMaterial,
      closingMaterial,
      FlowValue(t.damagedMaterials, f, to, Quantity, materialPrice),
      FlowValue(t.inventory, f, to, Quantity, materialPrice)
        + FlowValue(t.materialTransfersIn, f, to, Quantity, materialPrice)
        + FlowValue(t.procurementSupplied, f, to, Quantity, materialPrice),
      FlowValue(t.materialTransfersOut, f, to, Quantity, materialPrice));

    v := StockMetrics(material, product, Plus(material, product));
  }

  // ------------------------------------------------------------------
  // metrics: revenue, cost, profit and the cost/revenue ratio.
  // ------------------------------------------------------------------

  datatype SaleItem = SaleItem(
    product_id: Id,
    quantity: Option<real>,
    unit_price: Option<real>,
    unit_cost: Option<real>,
    subtotal: Option<real>,
    total_cost: Option<real>)

  /** A sale with its line items (`items || []`). */
  datatype Sale = Sale(branch_id: Id, created_at: Option<int>, total_amount: Option<real>, items: seq<SaleItem>)

  /** A row of one of the cost tables (complimentary, damage, imprest, ...). */
  datatype CostRow = CostRow(branch_id: Id, created_at: Option<int>, cost: Option<real>)

  /** The five cost buckets added to the sale-line cost. */
  datatype CostBuckets = CostBuckets(
    complimentary: seq<CostRow>,
    damage: seq<CostRow>,
    imprest: seq<CostRow>,
    materialDamage: seq<CostRow>,
    indirectMaterial: seq<CostRow>)

  datatype Metrics = Metrics(revenue: real, cost: real, profit: real, costToRevenueRatio: real, totalItems: real)

  function Subtotal(i: SaleItem): real { OrZero(i.subtotal) }
  function LineCost(i: SaleItem): real { OrZero(i.total_cost) }
  function ItemQuantity(i: SaleItem): real { OrZero(i.quantity) }

  function SaleRevenue(s: Sale): real { Sum(s.items, Subtotal) }
  function SaleCost(s: Sale): real { Sum(s.items, LineCost) }
  function SaleQuantity(s: Sale): real { Sum(s.items, ItemQuantity) }

  function RowCost(r: CostRow): real { OrZero(r.cost) }

  /** `sumCost(arr)`. */
  function BucketCost(rows: seq<CostRow>): real { Sum(rows, RowCost) }

  function BucketsCost(b: CostBuckets): real
  {
    BucketCost(b.complimentary) + BucketCost(b.damage) + BucketCost(b.imprest)
      + BucketCost(b.materialDamage) + BucketCost(b.indirectMaterial)
  }

  /** Cost as a percentage of revenue, 0 when there is no revenue. */
  function CostToRevenueRatio(cost: real, revenue: real): real
  {
    if revenue > 0.0 then cost / revenue * 100.0 else 0.0
  }

  /**
   * The ratio is 0 without revenue; with revenue it exceeds 100 exactly
   * when there is a loss, and stays at or below a threshold `k` exactly
   * when cost is at most `k` percent of revenue.
   */
  lemma RatioMeaning(cost: real, revenue: real, k: real)
    ensures revenue <= 0.0 ==> CostToRevenueRatio(cost, revenue) == 0.0
    ensures revenue > 0.0 ==> (CostToRevenueRatio(cost, revenue) > 100.0 <==> revenue - cost < 0.0)
    ensures revenue > 0.0 ==> (CostToRevenueRatio(cost, revenue) <= k <==> cost * 100.0 <= k * revenue)
  {
    if revenue > 0.0 {
      var r := CostToRevenueRatio(cost, revenue);
      assert r * revenue == cost * 100.0;
      if r <= k {
        assert r * revenue <= k * revenue;
      } else {
        assert r * revenue > k * revenue;
      }
      if r > 100.0 {
        assert r * revenue > 100.0 * revenue;
        assert cost > revenue;
      } else {
        assert r * revenue <= 100.0 * revenue;
        assert cost <= revenue;
      }
    }
  }

  /** The nested loops over sales and their items, then the five buckets. */
  method ComputeMetrics(sales: seq<Sale>, buckets: CostBuckets) returns (m: Metrics)
    ensures m.revenue == Sum(sales, SaleRevenue)
    ensures m.cost == Sum(sales, SaleCost) + BucketsCost(buckets)
    ensures m.totalItems == Sum(sales, SaleQuantity)
    ensures m.profit == m.revenue - m.cost
    ensures m.costToRevenueRatio == CostToRevenueRatio(m.cost, m.revenue)
  {
    var totalRevenue, totalCost, totalItems := 0.0, 0.0, 0.0;
    var i := 0;
    while i < |sales|
      invariant 0 <= i <= |sales|
      invariant totalRevenue == Sum(sales[..i], SaleRevenue)
      invariant totalCost == Sum(sales[..i], SaleCost)
      invariant totalItems == Sum(sales[..i], SaleQuantity)
    {
      var items := sales[i].items;
      var revenue0, cost0, count0 := totalRevenue, totalCost, totalItems;
      var j := 0;
      while j < |items|
        invariant 0 <= j <= |items|
        invariant totalRevenue == revenue0 + Sum(items[..j], Subtotal)
        invariant totalCost == cost0 + Sum(items[..j], LineCost)
        invariant totalItems == count0 + Sum(items[..j], ItemQuantity)
      {
        SumSnoc(items, j, Subtotal);
        SumSnoc(items, j, LineCost);
        SumSnoc(items, j, ItemQuantity);
        totalRevenue := totalRevenue + OrZero(items[j].subtotal);
        totalCost := totalCost + OrZero(items[j].total_cost);
        totalItems := totalItems + OrZero(items[j].quantity);
        j := j + 1;
      }
      assert items[..j] == items;
      SumSnoc(sales, i, SaleRevenue);
      SumSnoc(sales, i, SaleCost);
      SumSnoc(sales, i, SaleQuantity);
      i := i + 1;
    }
    assert sales[..i] == sales;
    totalCost := totalCost + BucketCost(buckets.complimentary);
    totalCost := totalCost + BucketCost(buckets.damage);
    totalCost := totalCost + BucketCost(buckets.imprest);
    totalCost := totalCost + BucketCost(buckets.materialDamage);
    totalCost := totalCost + BucketCost(buckets.indirectMaterial);
    var profit := totalRevenue - totalCost;
    var ratio := if totalRevenue > 0.0 then totalCost / totalRevenue * 100.0 else 0.0;
    m := Metrics(totalRevenue, totalCost, profit, ratio, totalItems);
  }

  function OfProduct(pid: Id): SaleItem -> bool { (it: SaleItem) => it.product_id == pid }

  function ScopeSale(sale: Sale, selectedProduct: Id): Sale
  {
    sale.(items := Filter(sale.items, OfProduct(selectedProduct)))
  }

  /**
   * With a product selected, each sale keeps only the items of that product,
   * in order; the sales themselves are all kept.
   */
  function ScopeItemsToProduct(sales: seq<Sale>, selectedProduct: Id): (r: seq<Sale>)
    ensures |r| == |sales|
    ensures forall i :: 0 <= i < |r| ==>
      r[i].branch_id == sales[i].branch_id && r[i].total_amount == sales[i].total_amount &&
      (selectedProduct == "all" ==> r[i].items == sales[i].items) &&
      (selectedProduct != "all" ==> r[i].items == Filter(sales[i].items, OfProduct(selectedProduct)))
  {
    if selectedProduct == "all" then sales
    else if |sales| == 0 then []
    else ScopeItemsToProduct(sales[..|sales| - 1], selectedProduct) + [ScopeSale(sales[|sales| - 1], selectedProduct)]
  }

  function ProductSubtotal(pid: Id): SaleItem -> real
  {
    (it: SaleItem) => if it.product_id == pid then Subtotal(it) else 0.0
  }

  function ProductRevenue(pid: Id): Sale -> real { (s: Sale) => Sum(s.items, ProductSubtotal(pid)) }

  /** Revenue of the sales scoped to one product is the revenue of that product's lines. */
  lemma {:induction false} ScopedRevenue(sales: seq<Sale>, selectedProduct: Id)
    requires selectedProduct != "all"
    ensures Sum(ScopeItemsToProduct(sales, selectedProduct), SaleRevenue) == Sum(sales, ProductRevenue(selectedProduct))
  {
    if |sales| > 0 {
      var n := |sales| - 1;
      var init := ScopeItemsToProduct(sales[..n], selectedProduct);
      var last := ScopeSale(sales[n], selectedProduct);
      var scoped := init + [last];
      assert ScopeItemsToProduct(sales, selectedProduct) == scoped;
      assert scoped[..n] == init;
      ScopedRevenue(sales[..n], selectedProduct);
      SumFilterAsGuard(sales[n].items, OfProduct(selectedProduct), Subtotal, ProductSubtotal(selectedProduct));
      assert SaleRevenue(last) == ProductRevenue(selectedProduct)(sales[n]);
      assert Sum(scoped, SaleRevenue) == Sum(init, SaleRevenue) + SaleRevenue(last);
    }
  }
}
