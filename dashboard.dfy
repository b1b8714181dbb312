/**
 * The dashboard: the current week's cost/revenue ratio, the count of
 * materials at or below their minimum stock, and the recent-production
 * list.
 */
module Dashboard {
  import opened Common
  import opened Calendar
  import opened Ledger
  import opened Accounts

  // ------------------------------------------------------------------
  // The week (getCurrentWeekRange is Calendar.CurrentWeek).
  // ------------------------------------------------------------------

  /** The week ends on the Sunday six days after its Monday, at the last millisecond of that day. */
  lemma WeekEndsSunday(now: int)
    ensures var w := CurrentWeek(now);
            DayOf(w.end) == DayOf(w.start) + 6 && Weekday(w.end) == 0 && w.end == EndOfDay(w.end)
  {
    var w := CurrentWeek(now);
    var d := DayOf(w.start);
    assert w.start == d * DayMs;
    assert w.end == (d + 6) * DayMs + (DayMs - 1);
    assert DayOf(w.end) == d + 6;
    assert Weekday(w.start) == (d + 4) % 7 == 1;
  }

  // ------------------------------------------------------------------
  // The cost/revenue ratio of the week.
  // ------------------------------------------------------------------

  /**
   * metrics: the sale lines' subtotals against their costs plus the five
   * cost tables, as a percentage, 0 without revenue.
   */
  method WeekRatio(sales: seq<Sale>, buckets: CostBuckets) returns (ratio: real)
    ensures ratio == CostToRevenueRatio(Sum(sales, SaleCost) + BucketsCost(buckets), Sum(sales, SaleRevenue))
    ensures Sum(sales, SaleRevenue) <= 0.0 ==> ratio == 0.0
  {
    var m := ComputeMetrics(sales, buckets);
    ratio := m.costToRevenueRatio;
  }

  // ------------------------------------------------------------------
  // Low stock.
  // ------------------------------------------------------------------

  /** `material.minimum_stock`: a missing key, a stored null, or a number. */
  datatype MinimumStock = Undefined | NullMinimum | Minimum(value: real)

  datatype Material = Material(id: Id, minimum_stock: MinimumStock)

  function MinimumOrZero(m: MinimumStock): real { if m.Minimum? then m.value else 0.0 }

  /**
   * A material counts when its minimum is not undefined (a null minimum
   * counts as 0), its current quantity is not exactly 0, and the quantity
   * is at most the minimum.
   */
  predicate IsLow(index: map<Id, MaterialSummary>, m: Material)
  {
    var q := MaterialBalance(MaterialSummaryOf(index, m.id));
    !m.minimum_stock.Undefined? && q != 0.0 && q <= MinimumOrZero(m.minimum_stock)
  }

  function LowIn(index: map<Id, MaterialSummary>): Material -> bool { (m: Material) => IsLow(index, m) }

  function SummaryRow(s: MaterialSummary): MaterialSummary { s }

  /** `summaryByMaterialId`: the last summary row of each material. */
  function SummaryIndex(summary: seq<MaterialSummary>): map<Id, MaterialSummary>
  {
    IndexWith(summary, MaterialIdOf, SummaryRow)
  }

  /** The `forEach` that fills the summary index, then the one that counts. */
  method LowStockCount(materials: seq<Material>, summary: seq<MaterialSummary>) returns (count: nat)
    ensures count == |Filter(materials, LowIn(SummaryIndex(summary)))|
    ensures count <= |materials|
  {
    var index := BuildIndexWith(summary, MaterialIdOf, SummaryRow);
    count := 0;
    var i := 0;
    while i < |materials|
      invariant 0 <= i <= |materials|
      invariant count == |Filter(materials[..i], LowIn(index))|
      invariant count <= i
    {
      FilterStep(materials, i, LowIn(index));
      var m := materials[i];
      var q := MaterialBalance(MaterialSummaryOf(index, m.id));
      if !m.minimum_stock.Undefined? && q != 0.0 && q <= MinimumOrZero(m.minimum_stock) {
        count := count + 1;
      }
      i := i + 1;
    }
    assert materials[..i] == materials;
  }

  /**
   * A material with no minimum set (null) is counted only when its stock is
   * negative; one without a summary row is never counted.
   */
  lemma LowStockEdgeCases(index: map<Id, MaterialSummary>, m: Material)
    ensures m.minimum_stock.NullMinimum? ==> (IsLow(index, m) <==> MaterialBalance(MaterialSummaryOf(index, m.id)) < 0.0)
    ensures m.id !in index ==> !IsLow(index, m)
    ensures m.minimum_stock.Undefined? ==> !IsLow(index, m)
  {
  }

  // ------------------------------------------------------------------
  // Recent production.
  // ------------------------------------------------------------------

  datatype ProductionRow = ProductionRow(branch_name: string, product_name: string, yieldQuantity: Option<real>, timestamp: string)

  datatype RecentEntry = RecentEntry(branch: string, productName: string, yieldQuantity: real, timestamp: string)

  /** One row with its defaults; `now` is the current time as an ISO string. */
  function RecentEntryOf(r: ProductionRow, now: string): (e: RecentEntry)
    ensures e.branch == (if r.branch_name == "" then "Unknown Branch" else r.branch_name)
    ensures e.productName == (if r.product_name == "" then "Unknown Product" else r.product_name)
    ensures r.yieldQuantity.None? ==> e.yieldQuantity == 0.0
    ensures r.yieldQuantity.Some? ==> e.yieldQuantity == r.yieldQuantity.value
    ensures e.timestamp == (if r.timestamp == "" then now else r.timestamp)
  {
    RecentEntry(TextOr(r.branch_name, "Unknown Branch"), TextOr(r.product_name, "Unknown Product"),
                OrIfFalsy(r.yieldQuantity, 0.0), TextOr(r.timestamp, now))
  }

  function RecentProduction(rows: seq<ProductionRow>, now: string): (r: seq<RecentEntry>)
    ensures |r| == |rows|
    ensures forall i :: 0 <= i < |rows| ==> r[i] == RecentEntryOf(rows[i], now)
  {
    if |rows| == 0 then [] else RecentProduction(rows[..|rows| - 1], now) + [RecentEntryOf(rows[|rows| - 1], now)]
  }

  /** Every displayed row names a branch and a product. */
  lemma RecentNamesNonEmpty(rows: seq<ProductionRow>, now: string)
    ensures forall e :: e in RecentProduction(rows, now) ==> e.branch != "" && e.productName != ""
  {
  }
}
