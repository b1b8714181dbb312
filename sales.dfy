/**
 * The sales screen: creating a sale from the form's lines, and listing
 * the sales of the chosen period.
 *
 * The calendar month and year of an instant (date-fns `startOfMonth` ...
 * `endOfYear`) are functions passed in.
 */
module Sales {
  import opened Common
  import opened Calendar
  import SaleForm

  type FormItem = SaleForm.FormItem

  datatype ProductRecipe = ProductRecipe(product_id: Id, unit_cost: Option<real>)

  /** A `sale_items` row as inserted. */
  datatype SaleLine = SaleLine(
    sale_id: Id, product_id: Id, quantity: real, unit_price: real,
    subtotal: real, unit_cost: real, total_cost: real, branch_id: Option<Id>)

  function LineAmount(item: FormItem): real { item.quantity * item.unit_price }

  /** total_amount: quantity times unit price, summed over the lines. */
  function TotalAmount(items: seq<FormItem>): real
  {
    Sum(items, LineAmount)
  }

  /** `recipe?.unit_cost ?? 0` for the first recipe of the product. */
  function RecipeCost(recipes: seq<ProductRecipe>, id: Id): (c: real)
    ensures (forall j :: 0 <= j < |recipes| ==> recipes[j].product_id != id) ==> c == 0.0
    ensures forall j :: 0 <= j < |recipes| && recipes[j].product_id == id && (forall i :: 0 <= i < j ==> recipes[i].product_id != id)
              ==> c == OrZero(recipes[j].unit_cost)
  {
    var r := Find(recipes, RecipeFor(id));
    if r.Some? then OrZero(r.value.unit_cost) else 0.0
  }

  /** The test of `recipes?.find(...)`: the recipe is the product's. */
  function RecipeFor(id: Id): ProductRecipe -> bool { (r: ProductRecipe) => r.product_id == id }

  function LineOf(item: FormItem, recipes: seq<ProductRecipe>, saleId: Id, branchId: Option<Id>): SaleLine
  {
    var unitCost := RecipeCost(recipes, item.product_id);
    SaleLine(saleId, item.product_id, item.quantity, item.unit_price,
             item.quantity * item.unit_price, unitCost, item.quantity * unitCost, branchId)
  }

  /** The `sale_items` rows of a new sale, one per form line, in order. */
  function Lines(items: seq<FormItem>, recipes: seq<ProductRecipe>, saleId: Id, branchId: Option<Id>): (r: seq<SaleLine>)
    ensures |r| == |items|
    ensures forall j :: 0 <= j < |items| ==> r[j] == LineOf(items[j], recipes, saleId, branchId)
  {
    if |items| == 0 then []
    else
      var init := items[..|items| - 1];
      assert forall j :: 0 <= j < |init| ==> init[j] == items[j];
      Lines(init, recipes, saleId, branchId) + [LineOf(items[|items| - 1], recipes, saleId, branchId)]
  }

  function Subtotal(l: SaleLine): real { l.subtotal }
  function TotalCost(l: SaleLine): real { l.total_cost }
  function LineCost(recipes: seq<ProductRecipe>): FormItem -> real
  {
    (item: FormItem) => item.quantity * RecipeCost(recipes, item.product_id)
  }

  /**
   * The lines' subtotals add up to the sale's total_amount, and their costs
   * to each quantity times its recipe's unit cost.
   */
  lemma {:induction false} LinesMatchTotal(items: seq<FormItem>, recipes: seq<ProductRecipe>, saleId: Id, branchId: Option<Id>)
    ensures Sum(Lines(items, recipes, saleId, branchId), Subtotal) == TotalAmount(items)
    ensures Sum(Lines(items, recipes, saleId, branchId), TotalCost) == Sum(items, LineCost(recipes))
  {
    if |items| > 0 {
      var init := items[..|items| - 1];
      LinesMatchTotal(init, recipes, saleId, branchId);
      var ls0 := Lines(init, recipes, saleId, branchId);
      var ls := ls0 + [LineOf(items[|items| - 1], recipes, saleId, branchId)];
      assert ls == Lines(items, recipes, saleId, branchId);
      assert ls[..|ls| - 1] == ls0;
    }
  }

  /** A sale whose lines all have non-negative quantity and price has a non-negative total. */
  lemma TotalNonNegative(items: seq<FormItem>)
    requires forall i :: 0 <= i < |items| ==> items[i].quantity >= 0.0 && items[i].unit_price >= 0.0
    ensures TotalAmount(items) >= 0.0
  {
    SumNonNegative(items, LineAmount);
  }

  /**
   * branchToUse: the selected branch when the user's branch id is
   * "HEAD OFFICE", else the user's own branch id.
   */
  function BranchToUse(userBranchId: Option<Id>, selectedBranchId: Option<Id>): (b: Option<Id>)
    ensures userBranchId == Some("HEAD OFFICE") ==> b == selectedBranchId
    ensures userBranchId != Some("HEAD OFFICE") ==> b == userBranchId
  {
    if userBranchId == Some("HEAD OFFICE") then selectedBranchId else userBranchId
  }

  /** getPeriodRange: day, Monday-based week, month or year around now; anything else is the day. */
  function PeriodRange(timePeriod: string, now: int, monthOf: int -> Interval, yearOf: int -> Interval): (w: Interval)
    ensures timePeriod !in ["week", "month", "year"] ==> w == Interval(StartOfDay(now), EndOfDay(now))
    ensures timePeriod == "week" ==> w == CurrentWeek(now)
    ensures timePeriod == "month" ==> w == monthOf(now)
    ensures timePeriod == "year" ==> w == yearOf(now)
  {
    if timePeriod == "day" then Interval(StartOfDay(now), EndOfDay(now))
    else if timePeriod == "week" then CurrentWeek(now)
    else if timePeriod == "month" then monthOf(now)
    else if timePeriod == "year" then yearOf(now)
    else Interval(StartOfDay(now), EndOfDay(now))
  }

  /** The day and week ranges contain now. */
  lemma PeriodContainsNow(timePeriod: string, now: int, monthOf: int -> Interval, yearOf: int -> Interval)
    requires timePeriod !in ["month", "year"]
    ensures PeriodRange(timePeriod, now, monthOf, yearOf).Contains(now)
  {
  }

  datatype SaleRecord = SaleRecord(id: Id, created_at: int, total_amount: real)

  function InRange(w: Interval): SaleRecord -> bool { (s: SaleRecord) => w.Contains(s.created_at) }

  /** filteredSales over `sales ?? []`. */
  function FilteredSales(sales: Option<seq<SaleRecord>>, w: Interval): (r: seq<SaleRecord>)
    ensures sales.None? ==> r == []
    ensures forall s :: s in r <==> sales.Some? && s in sales.value && w.start <= s.created_at <= w.end
  {
    Filter(if sales.Some? then sales.value else [], InRange(w))
  }

  /** For "today" (and any unknown period) the list is exactly the sales made on the current day. */
  lemma TodaysSales(sales: seq<SaleRecord>, timePeriod: string, now: int, monthOf: int -> Interval, yearOf: int -> Interval)
    requires timePeriod !in ["week", "month", "year"]
    ensures forall s :: s in FilteredSales(Some(sales), PeriodRange(timePeriod, now, monthOf, yearOf))
                    <==> s in sales && SameDay(s.created_at, now)
  {
    forall s: SaleRecord ensures SameDay(s.created_at, now) <==> StartOfDay(now) <= s.created_at <= EndOfDay(now) {
      SameDayIsDayWindow(s.created_at, now);
    }
  }
}
