/**
 * The head-office analytics panel: sales of the current week, month or
 * year grouped into chart buckets, the panel's summary figures and its
 * two stock-balance helpers.
 *
 * The calendar fields of a local date (`getFullYear`, `getMonth`) and the
 * chart labels (`toLocaleString`) are functions passed in.
 */
module BranchAnalytics {
  import opened Common
  import opened Calendar
  import opened Ledger

  datatype SaleRow = SaleRow(created_at: int, total_amount: Option<real>)

  datatype Timeframe = Weekly | Monthly | Yearly

  /** `getDay()` with Sunday counted as 7. */
  function IsoWeekday(t: int): (d: int)
    ensures 1 <= d <= 7
    ensures d % 7 == Weekday(t)
  {
    if Weekday(t) == 0 then 7 else Weekday(t)
  }

  /** The weekly window: back `day - 1` days to Monday 00:00, then six more days to 23:59:59.999. */
  function WeekWindow(now: int): Interval
  {
    var start := StartOfDay(now) - (IsoWeekday(now) - 1) * DayMs;
    Interval(start, start + 6 * DayMs + DayMs - 1)
  }

  /** This panel's week is the dashboard's Monday-based week. */
  lemma WeekWindowIsCurrentWeek(now: int)
    ensures WeekWindow(now) == CurrentWeek(now)
  {
  }

  predicate InTimeframe(t: int, now: int, timeframe: Timeframe, yearOf: int -> int, monthOf: int -> int)
  {
    match timeframe
    case Weekly => WeekWindow(now).Contains(t)
    case Monthly => yearOf(t) == yearOf(now) && monthOf(t) == monthOf(now)
    case Yearly => yearOf(t) == yearOf(now)
  }

  function InTimeframeOf(now: int, timeframe: Timeframe, yearOf: int -> int, monthOf: int -> int): SaleRow -> bool
  {
    (r: SaleRow) => InTimeframe(r.created_at, now, timeframe, yearOf, monthOf)
  }

  /** filterSalesByTimeframe. */
  function FilterByTimeframe(rows: seq<SaleRow>, now: int, timeframe: Timeframe,
                             yearOf: int -> int, monthOf: int -> int): (r: seq<SaleRow>)
    ensures forall x :: x in r <==> x in rows && InTimeframe(x.created_at, now, timeframe, yearOf, monthOf)
  {
    Filter(rows, InTimeframeOf(now, timeframe, yearOf, monthOf))
  }

  /** The weekly filter keeps exactly the sales from Monday 00:00 to Sunday 23:59:59.999 of this week. */
  lemma WeeklyKeepsThisWeek(rows: seq<SaleRow>, now: int, yearOf: int -> int, monthOf: int -> int)
    ensures forall x :: x in FilterByTimeframe(rows, now, Weekly, yearOf, monthOf) <==>
      x in rows && CurrentWeek(now).start <= x.created_at <= CurrentWeek(now).start + 7 * DayMs - 1
  {
    WeekWindowIsCurrentWeek(now);
  }

  function Amount(r: SaleRow): real { OrZero(r.total_amount) }

  /** The chart label of a sale. */
  function LabelOf(labelOf: int -> string): SaleRow -> string
  {
    (r: SaleRow) => labelOf(r.created_at)
  }

  datatype Entry = Entry(name: string, value: real)

  function Entries(order: seq<string>, totals: map<string, real>): (es: seq<Entry>)
    ensures |es| == |order|
    ensures forall j :: 0 <= j < |order| ==> es[j] == Entry(order[j], ValueOf(totals)(order[j]))
  {
    if |order| == 0 then []
    else Entries(order[..|order| - 1], totals) + [Entry(order[|order| - 1], ValueOf(totals)(order[|order| - 1]))]
  }

  function EntryValue(e: Entry): real { e.value }

  lemma {:induction false} EntriesSum(order: seq<string>, totals: map<string, real>)
    ensures Sum(Entries(order, totals), EntryValue) == Sum(order, ValueOf(totals))
  {
    if |order| > 0 {
      EntriesSum(order[..|order| - 1], totals);
      var es := Entries(order, totals);
      assert es[..|es| - 1] == Entries(order[..|order| - 1], totals);
    }
  }

  /**
   * groupByTimeframe: one entry per label, in order of the label's first
   * sale; each entry holds the total of its label's sales; together they
   * hold every filtered sale's amount once.
   */
  method GroupByTimeframe(rows: seq<SaleRow>, now: int, timeframe: Timeframe,
                          yearOf: int -> int, monthOf: int -> int, labelOf: int -> string)
    returns (entries: seq<Entry>)
    ensures |entries| == |FirstKeys(FilterByTimeframe(rows, now, timeframe, yearOf, monthOf), LabelOf(labelOf))|
    ensures forall j :: 0 <= j < |entries| ==>
              entries[j].name == FirstKeys(FilterByTimeframe(rows, now, timeframe, yearOf, monthOf), LabelOf(labelOf))[j]
    ensures forall j :: 0 <= j < |entries| ==>
              entries[j].value == KeyTotal(FilterByTimeframe(rows, now, timeframe, yearOf, monthOf), LabelOf(labelOf), Amount, entries[j].name)
    ensures Sum(entries, EntryValue) == Sum(FilterByTimeframe(rows, now, timeframe, yearOf, monthOf), Amount)
  {
    var kept := FilterByTimeframe(rows, now, timeframe, yearOf, monthOf);
    var order, totals := GroupSum(kept, LabelOf(labelOf), Amount);
    entries := Entries(order, totals);
    GroupEntries(kept, LabelOf(labelOf), order, totals);
  }

  /** The entries of a grouping record, read in its key order. */
  lemma GroupEntries(kept: seq<SaleRow>, byLabel: SaleRow -> string, order: seq<string>, totals: map<string, real>)
    requires order == FirstKeys(kept, byLabel)
    requires forall k :: ValueOf(totals)(k) == KeyTotal(kept, byLabel, Amount, k)
    requires Sum(order, ValueOf(totals)) == Sum(kept, Amount)
    ensures |Entries(order, totals)| == |FirstKeys(kept, byLabel)|
    ensures forall j :: 0 <= j < |order| ==> Entries(order, totals)[j].name == FirstKeys(kept, byLabel)[j]
    ensures forall j :: 0 <= j < |order| ==>
              Entries(order, totals)[j].value == KeyTotal(kept, byLabel, Amount, Entries(order, totals)[j].name)
    ensures Sum(Entries(order, totals), EntryValue) == Sum(kept, Amount)
  {
    EntriesSum(order, totals);
  }

  /** The labels are distinct and every kept sale's label is among them. */
  lemma GroupLabels(rows: seq<SaleRow>, now: int, timeframe: Timeframe,
                    yearOf: int -> int, monthOf: int -> int, labelOf: int -> string)
    ensures var kept := FilterByTimeframe(rows, now, timeframe, yearOf, monthOf);
            Distinct(FirstKeys(kept, LabelOf(labelOf)))
            && forall i :: 0 <= i < |kept| ==> labelOf(kept[i].created_at) in FirstKeys(kept, LabelOf(labelOf))
  {
    var kept := FilterByTimeframe(rows, now, timeframe, yearOf, monthOf);
    FirstKeysFacts(kept, LabelOf(labelOf));
  }

  datatype SummaryMetrics = SummaryMetrics(salesTotal: real, materialCount: nat, productCount: nat)

  function CountOr<T>(data: Option<seq<T>>): nat
  {
    if data.Some? then |data.value| else 0
  }

  /** calculateSummaryMetrics: the sum of the chart entries and the lengths of the two lists (0 when not loaded). */
  function SummaryOf<M, P>(salesData: Option<seq<Entry>>, materialsData: Option<seq<M>>, productsData: Option<seq<P>>): (m: SummaryMetrics)
    ensures salesData.None? ==> m.salesTotal == 0.0
    ensures salesData.Some? ==> m.salesTotal == Sum(salesData.value, EntryValue)
    ensures materialsData.None? ==> m.materialCount == 0
    ensures materialsData.Some? ==> m.materialCount == |materialsData.value|
    ensures productsData.None? ==> m.productCount == 0
    ensures productsData.Some? ==> m.productCount == |productsData.value|
  {
    SummaryMetrics(
      if salesData.Some? then Sum(salesData.value, EntryValue) else 0.0,
      CountOr(materialsData),
      CountOr(productsData))
  }

  /** getMaterialCurrentQuantity. */
  function MaterialCurrentQuantity(s: MaterialSummary): real
  {
    OrZero(s.total_quantity) + OrZero(s.opening_stock) + OrZero(s.total_procurement_quantity)
      + OrZero(s.total_transfer_in_quantity) - OrZero(s.total_transfer_out_quantity)
      - OrZero(s.total_usage) - OrZero(s.total_damage_quantity)
  }

  /** getProductCurrentQuantity, in the panel's own order. */
  function ProductCurrentQuantity(s: ProductSummary): real
  {
    OrZero(s.total_production_quantity) + OrZero(s.total_quantity) + OrZero(s.opening_stock)
      + OrZero(s.total_transfer_in_quantity) - OrZero(s.total_usage_quantity)
      - OrZero(s.total_transfer_out_quantity) - OrZero(s.total_complimentary_quantity)
      - OrZero(s.total_damage_quantity) - OrZero(s.total_sales_quantity)
  }

  /** Both helpers are the shared balances. */
  lemma CurrentQuantitiesAgree(m: MaterialSummary, p: ProductSummary)
    ensures MaterialCurrentQuantity(m) == MaterialBalance(m)
    ensures ProductCurrentQuantity(p) == ProductBalance(p)
  {
  }
}
