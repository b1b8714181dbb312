/**
 * The older accounts screen.  It differs from the current one in three
 * ways: products are priced at their unit cost, the opening and closing
 * product values use one latest row of the whole table (not one per
 * group), and material opening and closing values sum the rows of a single
 * day.
 */
module Acctest {
  import opened Common
  import opened Calendar
  import opened Accounts

  /** getProductPrice: the `unit_cost` of the first product with the id, else 0. */
  function ProductUnitCost(products: seq<Product>, id: Id): (p: real)
    ensures (forall j :: 0 <= j < |products| ==> products[j].id != id) ==> p == 0.0
    ensures forall i ::
      (0 <= i < |products| && products[i].id == id && forall j :: 0 <= j < i ==> products[j].id != id)
      ==> p == OrZero(products[i].unit_cost)
  {
    var k := FindFirst(products, ProductWithId(id));
    if k.Some? then OrZero(products[k.value].unit_cost) else 0.0
  }

  /** getMaterialPrice: the `unit_price` of the first material with the id, else 0. */
  function MaterialUnitPrice(materials: seq<Material>, id: Id): (p: real)
    ensures (forall j :: 0 <= j < |materials| ==> materials[j].id != id) ==> p == 0.0
    ensures forall i ::
      (0 <= i < |materials| && materials[i].id == id && forall j :: 0 <= j < i ==> materials[j].id != id)
      ==> p == OrZero(materials[i].unit_price)
  {
    var k := FindFirst(materials, MaterialWithId(id));
    if k.Some? then OrZero(materials[k.value].unit_price) else 0.0
  }

  /**
   * The two screens' product prices read different columns: the same
   * product row is worth its `price` on one and its `unit_cost` on the other.
   */
  lemma PriceBases(products: seq<Product>, i: nat)
    requires i < |products| && Truthy(products[i].id)
    requires forall j :: 0 <= j < i ==> products[j].id != products[i].id
    ensures ProductPrice(products, products[i].id) == OrZero(products[i].price)
    ensures ProductUnitCost(products, products[i].id) == OrZero(products[i].unit_cost)
  {
  }

  /** A row dated on `date`'s day or an earlier one. */
  predicate OnOrBeforeDay(r: StockRecord, date: int)
  {
    r.created_at.Some? && SameDayOrBefore(r.created_at.value, date)
  }

  function OnOrBeforeDayOf(date: int): StockRecord -> bool { (r: StockRecord) => OnOrBeforeDay(r, date) }

  /**
   * getLatest(arr, date, key): the raw `key` column of the latest row dated
   * on or before `date`'s day, and the number 0 when there is none.
   */
  function GetLatest(rows: seq<StockRecord>, date: int, key: StockRecord -> Option<real>): Option<real>
  {
    var upTo := Filter(rows, OnOrBeforeDayOf(date));
    if |upTo| > 0 then key(Latest(upTo)) else Some(0.0)
  }

  lemma GetLatestMeaning(rows: seq<StockRecord>, date: int, key: StockRecord -> Option<real>)
    ensures (forall x :: x in rows ==> !OnOrBeforeDay(x, date)) ==> GetLatest(rows, date, key) == Some(0.0)
    ensures (exists x :: x in rows && OnOrBeforeDay(x, date)) ==>
      exists r :: LatestAmong(rows, OnOrBeforeDayOf(date), r) && GetLatest(rows, date, key) == key(r)
  {
    var p := OnOrBeforeDayOf(date);
    if |Filter(rows, p)| == 0 {
      FilterEmpty(rows, p);
    } else {
      LatestOfFilter(rows, p);
    }
  }

  function OpeningStockColumn(r: StockRecord): Option<real> { r.opening_stock }
  function QuantityColumn(r: StockRecord): Option<real> { r.quantity }

  predicate HasItem(r: StockRecord) { Truthy(r.item_id) }

  function PricedAt(level: real, price: Id -> real): StockRecord -> real
  {
    (r: StockRecord) => if HasItem(r) then level * price(r.item_id) else 0.0
  }

  function ItemPrice(price: Id -> real): StockRecord -> real
  {
    (r: StockRecord) => if HasItem(r) then price(r.item_id) else 0.0
  }

  /**
   * openingProductValue / closingProductValue: every row with a product id
   * is valued at one and the same level, the latest `key` of the whole
   * table on or before `date`, times its own product's price.
   */
  function TableLevelValue(rows: seq<StockRecord>, date: int, key: StockRecord -> Option<real>, price: Id -> real): real
  {
    var level := OrZero(GetLatest(rows, date, key));
    Sum(rows, PricedAt(level, price))
  }

  /** The single level, the latest `key` of the table on or before `date`, times the sum of the rows' prices. */
  function LevelWorth(rows: seq<StockRecord>, date: int, key: StockRecord -> Option<real>, price: Id -> real): real
  {
    OrZero(GetLatest(rows, date, key)) * Sum(rows, ItemPrice(price))
  }

  /** That value factors into the single level times the sum of the rows' prices. */
  lemma TableLevelFactors(rows: seq<StockRecord>, date: int, key: StockRecord -> Option<real>, price: Id -> real)
    ensures TableLevelValue(rows, date, key, price) == LevelWorth(rows, date, key, price)
  {
    LevelFactors(rows, OrZero(GetLatest(rows, date, key)), price);
  }

  lemma LevelFactors(rows: seq<StockRecord>, level: real, price: Id -> real)
    ensures Sum(rows, PricedAt(level, price)) == level * Sum(rows, ItemPrice(price))
  {
    forall i | 0 <= i < |rows| ensures PricedAt(level, price)(rows[i]) == level * ItemPrice(price)(rows[i]) {
    }
    SumScale(rows, level, ItemPrice(price), PricedAt(level, price));
  }

  /** This screen's prices, as functions of the id. */
  function CostPrice(products: seq<Product>): Id -> real { (id: Id) => ProductUnitCost(products, id) }

  function UnitPrice(materials: seq<Material>): Id -> real { (id: Id) => MaterialUnitPrice(materials, id) }

  /** The opening product value looks up to `from` (or now); the closing one up to `to`, `from` or now. */
  function ProductOpening(t: StockTables, range: DateRange, now: int, products: seq<Product>): real
  {
    TableLevelValue(t.productInventory, range.from.GetOr(now), OpeningStockColumn, CostPrice(products))
  }

  function ProductClosing(t: StockTables, range: DateRange, now: int, products: seq<Product>): real
  {
    TableLevelValue(t.productClosingStock, Coalesce(range.to, range.from).GetOr(now), QuantityColumn, CostPrice(products))
  }

  /** Production rows count `Number(yield) || 0`. */
  function Yield(r: StockRecord): real { OrZero(r.yield_quantity) }

  /** Here `toDate` is `to` alone; the inclusion test still selects the same rows as the current screen's. */
  lemma InclusionAgrees(t: Option<int>, range: DateRange)
    ensures Included(t, range.from, range.to) <==> Included(t, range.from, ToDate(range))
  {
    if range.from.Some? && range.to.None? && t.Some? {
      InDayRangeSingleDay(t.value, range.from.value);
    }
  }

  /** Consequently every movement sum equals the current screen's under the same prices. */
  lemma {:induction false} FlowValuesAgree(rows: seq<StockRecord>, range: DateRange, qty: StockRecord -> real, price: Id -> real)
    ensures FlowValue(rows, range.from, range.to, qty, price) == FlowValue(rows, range.from, ToDate(range), qty, price)
  {
    forall r | r in rows ensures Included(r.created_at, range.from, range.to) <==> Included(r.created_at, range.from, ToDate(range)) {
      InclusionAgrees(r.created_at, range);
    }
    SumCongruent(rows,
      (r: StockRecord) => if Included(r.created_at, range.from, range.to) then qty(r) * price(r.item_id) else 0.0,
      (r: StockRecord) => if Included(r.created_at, range.from, ToDate(range)) then qty(r) * price(r.item_id) else 0.0);
  }

  /** Rows on a given day, or all rows when there is no day. */
  predicate OnDayOrAll(r: StockRecord, day: Option<int>)
  {
    day.None? || (r.created_at.Some? && SameDay(r.created_at.value, day.value))
  }

  function DayColumnValue(day: Option<int>, column: StockRecord -> Option<real>, price: Id -> real): StockRecord -> real
  {
    (r: StockRecord) => if OnDayOrAll(r, day) then ColumnWorth(column, price)(r) else 0.0
  }

  /** A row's `column` times its item's price. */
  function ColumnWorth(column: StockRecord -> Option<real>, price: Id -> real): StockRecord -> real
  {
    (r: StockRecord) => OrZero(column(r)) * price(r.item_id)
  }

  function OnDayOf(day: int): StockRecord -> bool { (r: StockRecord) => OnDayOrAll(r, Some(day)) }

  function ClosingStockColumn(r: StockRecord): Option<real> { r.closing_stock }

  /** Material opening: `opening_stock` times price over the rows on `from`'s day (all rows without `from`). */
  function MaterialOpening(t: StockTables, range: DateRange, materials: seq<Material>): real
  {
    Sum(t.inventory, DayColumnValue(range.from, OpeningStockColumn, UnitPrice(materials)))
  }

  /** Material closing: `closing_stock` times price over the rows on `to`'s day, else `from`'s, else all. */
  function MaterialClosing(t: StockTables, range: DateRange, materials: seq<Material>): real
  {
    Sum(t.materialClosingStock,
        DayColumnValue(Coalesce(range.to, range.from), ClosingStockColumn, UnitPrice(materials)))
  }

  /**
   * A one-day sum ignores every row of other days: it equals the sum over
   * the rows of that day alone; with no day it is the sum over all rows.
   */
  lemma {:induction false} DayColumnSumIsThatDay(rows: seq<StockRecord>, day: int, column: StockRecord -> Option<real>, price: Id -> real)
    ensures Sum(rows, DayColumnValue(Some(day), column, price)) == Sum(Filter(rows, OnDayOf(day)), ColumnWorth(column, price))
  {
    SumFilterAsGuard(rows, OnDayOf(day), ColumnWorth(column, price), DayColumnValue(Some(day), column, price));
  }

  lemma AllDaysSum(rows: seq<StockRecord>, column: StockRecord -> Option<real>, price: Id -> real)
    ensures Sum(rows, DayColumnValue(None, column, price)) == Sum(rows, ColumnWorth(column, price))
  {
    SumCongruent(rows, DayColumnValue(None, column, price), ColumnWorth(column, price));
  }

  /** The worth of a material column over the rows of a day, or over all rows without a day. */
  function DayWorth(rows: seq<StockRecord>, day: Option<int>, column: StockRecord -> Option<real>, price: Id -> real): real
  {
    if day.Some? then Sum(Filter(rows, OnDayOf(day.value)), ColumnWorth(column, price)) else Sum(rows, ColumnWorth(column, price))
  }

  lemma DayColumnSum(rows: seq<StockRecord>, day: Option<int>, column: StockRecord -> Option<real>, price: Id -> real)
    ensures Sum(rows, DayColumnValue(day, column, price)) == DayWorth(rows, day, column, price)
  {
    if day.Some? {
      DayColumnSumIsThatDay(rows, day.value, column, price);
    } else {
      AllDaysSum(rows, column, price);
    }
  }

  /**
   * The product side: the opening and closing values are one table-wide
   * level times the sum of the rows' unit costs, and every movement value
   * is the current screen's Σ quantity·price over the rows it includes.
   */
  function ProductSide(t: StockTables, range: DateRange, now: int, products: seq<Product>): (v: StockValues)
    ensures v.opening == LevelWorth(t.productInventory, range.from.GetOr(now), OpeningStockColumn, CostPrice(products))
    ensures v.closing == LevelWorth(t.productClosingStock, ToDate(range).GetOr(now), QuantityColumn, CostPrice(products))
    ensures v.damages == FlowValue(t.productDamages, range.from, ToDate(range), Quantity, CostPrice(products))
    ensures v.stockIn == FlowValue(t.productInventory, range.from, ToDate(range), Quantity, CostPrice(products))
                       + FlowValue(t.productTransfersIn, range.from, ToDate(range), Quantity, CostPrice(products))
                       + FlowValue(t.production, range.from, ToDate(range), Yield, CostPrice(products))
    ensures v.transfersOut == FlowValue(t.productTransfersOut, range.from, ToDate(range), Quantity, CostPrice(products))
  {
    var pp := CostPrice(products);
    var f, to := range.from, range.to;
    TableLevelFactors(t.productInventory, range.from.GetOr(now), OpeningStockColumn, pp);
    TableLevelFactors(t.productClosingStock, ToDate(range).GetOr(now), QuantityColumn, pp);
    FlowValuesAgree(t.productDamages, range, Quantity, pp);
    FlowValuesAgree(t.productInventory, range, Quantity, pp);
    FlowValuesAgree(t.productTransfersIn, range, Quantity, pp);
    FlowValuesAgree(t.production, range, Yield, pp);
    FlowValuesAgree(t.productTransfersOut, range, Quantity, pp);
    StockValues(
      ProductOpening(t, range, now, products),
      ProductClosing(t, range, now, products),
      FlowValue(t.productDamages, f, to, Quantity, pp),
      FlowValue(t.productInventory, f, to, Quantity, pp)
        + FlowValue(t.productTransfersIn, f, to, Quantity, pp)
        + FlowValue(t.production, f, to, Yield, pp),
      FlowValue(t.productTransfersOut, f, to, Quantity, pp))
  }

  /**
   * The material side: the opening and closing values are the worth of the
   * rows of `from`'s day and of `to ?? from`'s day (all rows without that
   * day), and every movement value is the current screen's.
   */
  function MaterialSide(t: StockTables, range: DateRange, materials: seq<Material>): (v: StockValues)
    ensures v.opening == DayWorth(t.inventory, range.from, OpeningStockColumn, UnitPrice(materials))
    ensures v.closing == DayWorth(t.materialClosingStock, ToDate(range), ClosingStockColumn, UnitPrice(materials))
    ensures v.damages == FlowValue(t.damagedMaterials, range.from, ToDate(range), Quantity, UnitPrice(materials))
    ensures v.stockIn == FlowValue(t.inventory, range.from, ToDate(range), Quantity, UnitPrice(materials))
                       + FlowValue(t.materialTransfersIn, range.from, ToDate(range), Quantity, UnitPrice(materials))
                       + FlowValue(t.procurementSupplied, range.from, ToDate(range), Quantity, UnitPrice(materials))
    ensures v.transfersOut == FlowValue(t.materialTransfersOut, range.from, ToDate(range), Quantity, UnitPrice(materials))
  {
    var mp := UnitPrice(materials);
    var f, to := range.from, range.to;
    DayColumnSum(t.inventory, range.from, OpeningStockColumn, mp);
    DayColumnSum(t.materialClosingStock, ToDate(range), ClosingStockColumn, mp);
    FlowValuesAgree(t.damagedMaterials, range, Quantity, mp);
    FlowValuesAgree(t.inventory, range, Quantity, mp);
    FlowValuesAgree(t.materialTransfersIn, range, Quantity, mp);
    FlowValuesAgree(t.procurementSupplied, range, Quantity, mp);
    FlowValuesAgree(t.materialTransfersOut, range, Quantity, mp);
    StockValues(
      MaterialOpening(t, range, materials),
      MaterialClosing(t, range, materials),
      FlowValue(t.damagedMaterials, f, to, Quantity, mp),
      FlowValue(t.inventory, f, to, Quantity, mp)
        + FlowValue(t.materialTransfersIn, f, to, Quantity, mp)
        + FlowValue(t.procurementSupplied, f, to, Quantity, mp),
      FlowValue(t.materialTransfersOut, f, to, Quantity, mp))
  }

  /** The whole valuation of this screen: each total is material plus product. */
  function StockMetricsValue(t: StockTables, range: DateRange, now: int,
                             products: seq<Product>, materials: seq<Material>): (v: StockMetrics)
    ensures v.material.opening == DayWorth(t.inventory, range.from, OpeningStockColumn, UnitPrice(materials))
    ensures v.product.opening == LevelWorth(t.productInventory, range.from.GetOr(now), OpeningStockColumn, CostPrice(products))
    ensures v.total.opening == v.material.opening + v.product.opening
    ensures v.total.closing == v.material.closing + v.product.closing
    ensures v.total.damages == v.material.damages + v.product.damages
    ensures v.total.stockIn == v.material.stockIn + v.product.stockIn
    ensures v.total.transfersOut == v.material.transfersOut + v.product.transfersOut
  {
    var material := MaterialSide(t, range, materials);
    var product := ProductSide(t, range, now, products);
    StockMetrics(material, product, Plus(material, product))
  }
}
