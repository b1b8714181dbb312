/**
 * The running stock balance of a material or a product in one branch.
 *
 * The database's summary views hold one row per (item, branch) with one
 * aggregated column per movement category; every screen derives the
 * "current quantity" from such a row by adding the inbound columns and
 * subtracting the outbound ones, each null or absent column counting as 0.
 * The formula is written once here; the screens' copies are related to it
 * in their own modules.
 *
 * As a reference definition, a summary row is also the result of recording
 * movements one at a time (`RecordMaterial`, `RecordProduct`), and the
 * balance is then the signed total of the recorded movements.
 */
module Ledger {
  import opened Common

  // ------------------------------------------------------------------
  // Materials: seven columns.
  // ------------------------------------------------------------------

  datatype MaterialSummary = MaterialSummary(
    material_id: Id,
    branch_id: Id,
    total_quantity: Option<real>,
    opening_stock: Option<real>,
    total_procurement_quantity: Option<real>,
    total_transfer_in_quantity: Option<real>,
    total_transfer_out_quantity: Option<real>,
    total_usage: Option<real>,
    total_damage_quantity: Option<real>)

  /** The empty object a screen falls back to (`summary[id] || {}`). */
  const NoMaterialSummary: MaterialSummary :=
    MaterialSummary("", "", None, None, None, None, None, None, None)

  function MaterialBalance(s: MaterialSummary): real
  {
    OrZero(s.total_quantity)
      + OrZero(s.opening_stock)
      + OrZero(s.total_procurement_quantity)
      + OrZero(s.total_transfer_in_quantity)
      - OrZero(s.total_transfer_out_quantity)
      - OrZero(s.total_usage)
      - OrZero(s.total_damage_quantity)
  }

  /** The movement categories that feed a material summary row, one per column. */
  datatype MaterialFlow =
    | Received | OpeningStock | Procured | TransferredIn
    | TransferredOut | Used | Damaged

  /** Inbound categories add to the stock, outbound ones subtract. */
  function MaterialSign(c: MaterialFlow): real
  {
    match c
    case Received | OpeningStock | Procured | TransferredIn => 1.0
    case TransferredOut | Used | Damaged => -1.0
  }

  function AddTo(x: Option<real>, q: real): Option<real> { Some(OrZero(x) + q) }

  /** Recording one movement adds its quantity to the column of its category. */
  function RecordMaterial(s: MaterialSummary, c: MaterialFlow, q: real): (r: MaterialSummary)
    ensures r.material_id == s.material_id && r.branch_id == s.branch_id
    ensures MaterialBalance(r) == MaterialBalance(s) + MaterialSign(c) * q
  {
    match c
    case Received => s.(total_quantity := AddTo(s.total_quantity, q))
    case OpeningStock => s.(opening_stock := AddTo(s.opening_stock, q))
    case Procured => s.(total_procurement_quantity := AddTo(s.total_procurement_quantity, q))
    case TransferredIn => s.(total_transfer_in_quantity := AddTo(s.total_transfer_in_quantity, q))
    case TransferredOut => s.(total_transfer_out_quantity := AddTo(s.total_transfer_out_quantity, q))
    case Used => s.(total_usage := AddTo(s.total_usage, q))
    case Damaged => s.(total_damage_quantity := AddTo(s.total_damage_quantity, q))
  }

  function AggregateMaterial(s: MaterialSummary, moves: seq<(MaterialFlow, real)>): MaterialSummary
  {
    if |moves| == 0 then s
    else RecordMaterial(AggregateMaterial(s, moves[..|moves| - 1]), moves[|moves| - 1].0, moves[|moves| - 1].1)
  }

  function MaterialContribution(m: (MaterialFlow, real)): real { MaterialSign(m.0) * m.1 }

  /**
   * A summary row aggregated from movement rows has, as its balance, the
   * starting balance plus each movement's quantity with its category's sign.
   */
  lemma {:induction false} MaterialBalanceIsSignedTotal(s: MaterialSummary, moves: seq<(MaterialFlow, real)>)
    ensures MaterialBalance(AggregateMaterial(s, moves))
         == MaterialBalance(s) + Sum(moves, MaterialContribution)
  {
    if |moves| > 0 {
      var init, last := moves[..|moves| - 1], moves[|moves| - 1];
      MaterialBalanceIsSignedTotal(s, init);
      var before := AggregateMaterial(s, init);
      assert AggregateMaterial(s, moves) == RecordMaterial(before, last.0, last.1);
      assert MaterialBalance(RecordMaterial(before, last.0, last.1)) == MaterialBalance(before) + MaterialContribution(last);
      assert Sum(moves, MaterialContribution) == Sum(init, MaterialContribution) + MaterialContribution(last);
    }
  }

  /** A material with no summary row, or with only empty columns, has balance 0. */
  lemma NoMaterialSummaryIsEmpty(moves: seq<(MaterialFlow, real)>)
    ensures MaterialBalance(NoMaterialSummary) == 0.0
    ensures MaterialBalance(AggregateMaterial(NoMaterialSummary, moves)) == Sum(moves, MaterialContribution)
  {
    MaterialBalanceIsSignedTotal(NoMaterialSummary, moves);
  }

  // ------------------------------------------------------------------
  // Products: nine columns.
  // ------------------------------------------------------------------

  datatype ProductSummary = ProductSummary(
    product_id: Id,
    branch_id: Id,
    total_quantity: Option<real>,
    opening_stock: Option<real>,
    total_production_quantity: Option<real>,
    total_transfer_in_quantity: Option<real>,
    total_transfer_out_quantity: Option<real>,
    total_usage_quantity: Option<real>,
    total_damage_quantity: Option<real>,
    total_sales_quantity: Option<real>,
    total_complimentary_quantity: Option<real>)

  const NoProductSummary: ProductSummary :=
    ProductSummary("", "", None, None, None, None, None, None, None, None, None)

  function ProductBalance(s: ProductSummary): real
  {
    OrZero(s.total_quantity)
      + OrZero(s.opening_stock)
      + OrZero(s.total_production_quantity)
      + OrZero(s.total_transfer_in_quantity)
      - OrZero(s.total_transfer_out_quantity)
      - OrZero(s.total_usage_quantity)
      - OrZero(s.total_damage_quantity)
      - OrZero(s.total_sales_quantity)
      - OrZero(s.total_complimentary_quantity)
  }

  datatype ProductFlow =
    | Received | OpeningStock | Produced | TransferredIn
    | TransferredOut | Used | Damaged | Sold | Complimentary

  function ProductSign(c: ProductFlow): real
  {
    match c
    case Received | OpeningStock | Produced | TransferredIn => 1.0
    case TransferredOut | Used | Damaged | Sold | Complimentary => -1.0
  }

  function RecordProduct(s: ProductSummary, c: ProductFlow, q: real): (r: ProductSummary)
    ensures r.product_id == s.product_id && r.branch_id == s.branch_id
    ensures ProductBalance(r) == ProductBalance(s) + ProductSign(c) * q
  {
    match c
    case Received => s.(total_quantity := AddTo(s.total_quantity, q))
    case OpeningStock => s.(opening_stock := AddTo(s.opening_stock, q))
    case Produced => s.(total_production_quantity := AddTo(s.total_production_quantity, q))
    case TransferredIn => s.(total_transfer_in_quantity := AddTo(s.total_transfer_in_quantity, q))
    case TransferredOut => s.(total_transfer_out_quantity := AddTo(s.total_transfer_out_quantity, q))
    case Used => s.(total_usage_quantity := AddTo(s.total_usage_quantity, q))
    case Damaged => s.(total_damage_quantity := AddTo(s.total_damage_quantity, q))
    case Sold => s.(total_sales_quantity := AddTo(s.total_sales_quantity, q))
    case Complimentary => s.(total_complimentary_quantity := AddTo(s.total_complimentary_quantity, q))
  }

  function AggregateProduct(s: ProductSummary, moves: seq<(ProductFlow, real)>): ProductSummary
  {
    if |moves| == 0 then s
    else RecordProduct(AggregateProduct(s, moves[..|moves| - 1]), moves[|moves| - 1].0, moves[|moves| - 1].1)
  }

  function ProductContribution(m: (ProductFlow, real)): real { ProductSign(m.0) * m.1 }

  lemma {:induction false} ProductBalanceIsSignedTotal(s: ProductSummary, moves: seq<(ProductFlow, real)>)
    ensures ProductBalance(AggregateProduct(s, moves))
         == ProductBalance(s) + Sum(moves, ProductContribution)
  {
    if |moves| > 0 {
      var init, last := moves[..|moves| - 1], moves[|moves| - 1];
      ProductBalanceIsSignedTotal(s, init);
      var before := AggregateProduct(s, init);
      assert AggregateProduct(s, moves) == RecordProduct(before, last.0, last.1);
      assert ProductBalance(RecordProduct(before, last.0, last.1)) == ProductBalance(before) + ProductContribution(last);
      assert Sum(moves, ProductContribution) == Sum(init, ProductContribution) + ProductContribution(last);
    }
  }

  lemma NoProductSummaryIsEmpty(moves: seq<(ProductFlow, real)>)
    ensures ProductBalance(NoProductSummary) == 0.0
    ensures ProductBalance(AggregateProduct(NoProductSummary, moves)) == Sum(moves, ProductContribution)
  {
    ProductBalanceIsSignedTotal(NoProductSummary, moves);
  }

  // ------------------------------------------------------------------
  // Lookup of a balance by item id (`summary[id] || {}`).
  // ------------------------------------------------------------------

  function MaterialSummaryOf(index: map<Id, MaterialSummary>, id: Id): MaterialSummary
  {
    if id in index then index[id] else NoMaterialSummary
  }

  function ProductSummaryOf(index: map<Id, ProductSummary>, id: Id): ProductSummary
  {
    if id in index then index[id] else NoProductSummary
  }

  /** A quantity map lookup `map[id] ?? 0`. */
  function QtyOf(qty: map<Id, real>, id: Id): real
  {
    if id in qty then qty[id] else 0.0
  }

  // ------------------------------------------------------------------
  // Quantity maps.
  // ------------------------------------------------------------------

  function MaterialIdOf(s: MaterialSummary): Id { s.material_id }
  function ProductIdOf(s: ProductSummary): Id { s.product_id }

  function RowsOrEmpty<T>(data: Option<seq<T>>): seq<T> { if data.Some? then data.value else [] }

  /** `materialQtyMap` (production screen): each material id maps to the balance of its last summary row. */
  method MaterialQtyMap(data: Option<seq<MaterialSummary>>) returns (qty: map<Id, real>)
    ensures var rows := RowsOrEmpty(data);
            (forall i :: 0 <= i < |rows| ==> rows[i].material_id in qty)
            && (forall id :: id in qty ==> exists i :: LastWithKey(rows, MaterialIdOf, i) && rows[i].material_id == id)
            && (forall i :: LastWithKey(rows, MaterialIdOf, i) ==> qty[rows[i].material_id] == MaterialBalance(rows[i]))
  {
    qty := BuildIndexWith(RowsOrEmpty(data), MaterialIdOf, MaterialBalance);
  }

  /** `productQtyMap` (production screen) and `useProductQuantityMap` (sale form): each product id maps to the balance of its last summary row. */
  method ProductQtyMap(data: Option<seq<ProductSummary>>) returns (qty: map<Id, real>)
    ensures var rows := RowsOrEmpty(data);
            (forall i :: 0 <= i < |rows| ==> rows[i].product_id in qty)
            && (forall id :: id in qty ==> exists i :: LastWithKey(rows, ProductIdOf, i) && rows[i].product_id == id)
            && (forall i :: LastWithKey(rows, ProductIdOf, i) ==> qty[rows[i].product_id] == ProductBalance(rows[i]))
  {
    qty := BuildIndexWith(RowsOrEmpty(data), ProductIdOf, ProductBalance);
  }
}
