/**
 * The procurement-order summary: each material's requested quantity,
 * its unit price from the joined material, the row cost and the page total.
 */
module PoSummary {
  import opened Common
  import opened Pagination

  datatype MaterialRef = MaterialRef(name: string, unit_price: Option<real>)

  /** `materials` as the join returns it: an array of rows, or one row or null. */
  datatype Joined = Many(rows: seq<MaterialRef>) | One(row: Option<MaterialRef>)

  datatype CumulativeRequest = CumulativeRequest(
    material_id: Id, total_quantity: Option<real>, total_requests: Option<real>, materials: Joined)

  /** The joined material the screen reads: the first of an array, or the object itself. */
  function MaterialOf(j: Joined): Option<MaterialRef>
  {
    match j
    case Many(rows) => if |rows| > 0 then Some(rows[0]) else None
    case One(row) => row
  }

  /** `unit_price || 0` of that material, 0 when there is none. */
  function UnitPrice(j: Joined): (p: real)
    ensures MaterialOf(j).None? ==> p == 0.0
    ensures j.Many? && |j.rows| > 0 ==> p == OrIfFalsy(j.rows[0].unit_price, 0.0)
    ensures j.One? && j.row.Some? ==> p == OrIfFalsy(j.row.value.unit_price, 0.0)
  {
    var m := MaterialOf(j);
    if m.Some? then OrIfFalsy(m.value.unit_price, 0.0) else 0.0
  }

  /** `name || "N/A"` of that material. */
  function MaterialName(j: Joined): (n: string)
    ensures n != ""
    ensures MaterialOf(j).Some? && MaterialOf(j).value.name != "" ==> n == MaterialOf(j).value.name
  {
    var m := MaterialOf(j);
    if m.Some? then TextOr(m.value.name, "N/A") else "N/A"
  }

  /** The Cost cell: `(total_quantity || 0) * price`. */
  function RowCost(r: CumulativeRequest): real
  {
    OrIfFalsy(r.total_quantity, 0.0) * UnitPrice(r.materials)
  }

  /** The header's `reduce`, adding each row's quantity times price to the accumulator. */
  function HeaderTotal(rows: seq<CumulativeRequest>, acc: real): real
  {
    if |rows| == 0 then acc
    else HeaderTotal(rows[1..], acc + OrIfFalsy(rows[0].total_quantity, 0.0) * UnitPrice(rows[0].materials))
  }

  /** The header total is the sum of the rows' Cost cells. */
  lemma {:induction false} HeaderIsSumOfCells(rows: seq<CumulativeRequest>, acc: real)
    ensures HeaderTotal(rows, acc) == acc + Sum(rows, RowCost)
  {
    if |rows| > 0 {
      HeaderIsSumOfCells(rows[1..], acc + RowCost(rows[0]));
      SumCons(rows[0], rows[1..], RowCost);
      assert [rows[0]] + rows[1..] == rows;
    }
  }

  /** With non-negative quantities and prices every row cost, and so the total, is non-negative. */
  lemma HeaderNonNegative(rows: seq<CumulativeRequest>)
    requires forall i :: 0 <= i < |rows| ==> OrIfFalsy(rows[i].total_quantity, 0.0) >= 0.0 && UnitPrice(rows[i].materials) >= 0.0
    ensures HeaderTotal(rows, 0.0) >= 0.0
  {
    forall i | 0 <= i < |rows| ensures RowCost(rows[i]) >= 0.0 {
      ProductNonNegative(OrIfFalsy(rows[i].total_quantity, 0.0), UnitPrice(rows[i].materials));
    }
    SumNonNegative(rows, RowCost);
    HeaderIsSumOfCells(rows, 0.0);
  }

  lemma ProductNonNegative(a: real, b: real)
    ensures a >= 0.0 && b >= 0.0 ==> a * b >= 0.0
  {
  }

  datatype PageResult = PageResult(materials: seq<CumulativeRequest>, hasNextPage: bool)

  /** The query function: `.range(from, to)` over the view's rows, and the next-page flag. */
  function SummaryPage(all: seq<CumulativeRequest>, page: nat): (r: PageResult)
    requires page >= 1
    ensures r.materials == Page(all, page)
    ensures r.hasNextPage <==> |Page(all, page + 1)| > 0
  {
    PagesTile(all, page);
    PageResult(Page(all, page), HasNextPage(|all|, page))
  }
}
