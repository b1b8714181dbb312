/**
 * The branch's imprest page: the imprests of the user's branch in the
 * chosen period, their header total, the items handed to the finalize
 * dialog with their costs, and which imprests can be ticked.
 */
module ImprestPage {
  import opened Common
  import opened Calendar

  /** An `imprest_requests` row; `unit_price` may be null. */
  datatype Imprest = Imprest(
    id: Id, branch_id: Id, created_at: int, status: string, name: string, unit: string,
    quantity: real, unit_price: Option<real>, order_id: Option<Id>)

  /** `calculateTotalCost(quantity, unitPrice)`. */
  function TotalCost(quantity: real, unitPrice: real): real { quantity * unitPrice }

  /** A row's displayed cost: `unit_price * quantity`, a null price counting as 0 in the product. */
  function RowCost(i: Imprest): real { TotalCost(i.quantity, OrZero(i.unit_price)) }

  function OfBranchIn(branch: Id, w: Interval): Imprest -> bool
  {
    (i: Imprest) => i.branch_id == branch && w.Contains(i.created_at)
  }

  /** filteredImprests: with no branch, nothing; otherwise the branch's imprests created inside the period. */
  function FilteredImprests(branch: Id, data: Option<seq<Imprest>>, w: Interval): (r: seq<Imprest>)
    ensures !Truthy(branch) ==> r == []
    ensures forall x :: x in r <==> Truthy(branch) && data.Some? && x in data.value && x.branch_id == branch && w.start <= x.created_at <= w.end
  {
    if !Truthy(branch) then [] else Filter(if data.Some? then data.value else [], OfBranchIn(branch, w))
  }

  /** The header: `reduce(acc + calculateTotalCost(quantity, unit_price), 0)` over the shown imprests. */
  function HeaderTotal(shown: seq<Imprest>): real
  {
    if |shown| == 0 then 0.0 else HeaderTotal(shown[..|shown| - 1]) + RowCost(shown[|shown| - 1])
  }

  function CostOfBranch(branch: Id, w: Interval): Imprest -> real
  {
    (i: Imprest) => if i.branch_id == branch && w.Contains(i.created_at) then RowCost(i) else 0.0
  }

  /**
   * The header is the total cost of the rows shown, which is also the sum
   * over all fetched imprests of the cost of those of the branch inside the
   * period; with no branch it is 0.
   */
  lemma {:induction false} HeaderTotalMeaning(branch: Id, rows: seq<Imprest>, w: Interval)
    ensures HeaderTotal(FilteredImprests(branch, Some(rows), w)) == Sum(FilteredImprests(branch, Some(rows), w), RowCost)
    ensures Truthy(branch) ==> HeaderTotal(FilteredImprests(branch, Some(rows), w)) == Sum(rows, CostOfBranch(branch, w))
    ensures !Truthy(branch) ==> HeaderTotal(FilteredImprests(branch, Some(rows), w)) == 0.0
  {
    HeaderIsSum(FilteredImprests(branch, Some(rows), w));
    if Truthy(branch) {
      SumFilterAsGuard(rows, OfBranchIn(branch, w), RowCost, CostOfBranch(branch, w));
    }
  }

  lemma {:induction false} HeaderIsSum(shown: seq<Imprest>)
    ensures HeaderTotal(shown) == Sum(shown, RowCost)
  {
    if |shown| > 0 {
      HeaderIsSum(shown[..|shown| - 1]);
    }
  }

  // ------------------------------------------------------------------
  // Ticking and finalizing.
  // ------------------------------------------------------------------

  /** A row's checkbox is disabled (and shown ticked) for supplied and pending imprests. */
  predicate Disabled(i: Imprest)
  {
    i.status in ["supplied", "pending"]
  }

  /** An item of the finalize dialog. */
  datatype FinalizeItem = FinalizeItem(id: Id, order_id: Option<Id>, name: string, quantity: real, unit: string, unit_price: Option<real>)

  function ItemOf(i: Imprest): FinalizeItem
  {
    FinalizeItem(i.id, i.order_id, i.name, i.quantity, i.unit, i.unit_price)
  }

  function SelectedUnsupplied(selected: seq<Id>): Imprest -> bool
  {
    (i: Imprest) => i.id in selected && i.status != "supplied"
  }

  /** The dialog's items: the page's imprests that are selected and not supplied, in page order. */
  function FinalizeItems(selected: seq<Id>, rows: seq<Imprest>): (items: seq<FinalizeItem>)
    ensures |items| == |Filter(rows, SelectedUnsupplied(selected))|
    ensures forall j :: 0 <= j < |items| ==> items[j] == ItemOf(Filter(rows, SelectedUnsupplied(selected))[j])
  {
    var kept := Filter(rows, SelectedUnsupplied(selected));
    seq(|kept|, j requires 0 <= j < |kept| => ItemOf(kept[j]))
  }

  /** Each item is a selected, not yet supplied imprest of the page, and every such imprest gives an item. */
  lemma FinalizeItemsMeaning(selected: seq<Id>, rows: seq<Imprest>)
    ensures forall x :: x in FinalizeItems(selected, rows) ==>
              exists i :: i in rows && i.id in selected && i.status != "supplied" && x == ItemOf(i)
    ensures forall i :: i in rows && i.id in selected && i.status != "supplied" ==> ItemOf(i) in FinalizeItems(selected, rows)
  {
    var kept := Filter(rows, SelectedUnsupplied(selected));
    var items := FinalizeItems(selected, rows);
    forall x | x in items
      ensures exists i :: i in rows && i.id in selected && i.status != "supplied" && x == ItemOf(i)
    {
      var j :| 0 <= j < |items| && items[j] == x;
      assert kept[j] in kept;
    }
    forall i | i in rows && i.id in selected && i.status != "supplied"
      ensures ItemOf(i) in items
    {
      assert i in kept;
      var j :| 0 <= j < |kept| && kept[j] == i;
      assert items[j] == ItemOf(i);
    }
  }

  /** An `imprest_supplied` row. */
  datatype SuppliedRow = SuppliedRow(
    branch_id: Option<Id>, name: string, quantity: real, status: string, unit: string,
    imprest_order_id: Option<Id>, user_id: Option<Id>, cost: real)

  function SuppliedRowOf(branch: Option<Id>, user: Option<Id>, x: FinalizeItem): SuppliedRow
  {
    SuppliedRow(branch, x.name, x.quantity, "supplied", x.unit, x.order_id, user,
                TotalCost(x.quantity, OrZero(x.unit_price)))
  }

  /** handleFinalizeOrder's `new_items`. */
  function SuppliedRows(branch: Option<Id>, user: Option<Id>, items: seq<FinalizeItem>): (rows: seq<SuppliedRow>)
    ensures |rows| == |items|
    ensures forall i :: 0 <= i < |items| ==> rows[i] == SuppliedRowOf(branch, user, items[i])
  {
    if |items| == 0 then [] else SuppliedRows(branch, user, items[..|items| - 1]) + [SuppliedRowOf(branch, user, items[|items| - 1])]
  }

  function SuppliedCost(s: SuppliedRow): real { s.cost }

  /**
   * Each recorded row is "supplied" with the cost shown for its imprest
   * (quantity times price, a null price as 0), so the rows' costs add up to
   * the shown costs of the finalized imprests.
   */
  lemma {:induction false} SuppliedCostsMatch(branch: Option<Id>, user: Option<Id>, selected: seq<Id>, rows: seq<Imprest>)
    ensures var kept := Filter(rows, SelectedUnsupplied(selected));
            var out := SuppliedRows(branch, user, FinalizeItems(selected, rows));
            (forall j :: 0 <= j < |out| ==> out[j].status == "supplied" && out[j].cost == RowCost(kept[j]))
            && Sum(out, SuppliedCost) == Sum(kept, RowCost)
  {
    var kept := Filter(rows, SelectedUnsupplied(selected));
    var out := SuppliedRows(branch, user, FinalizeItems(selected, rows));
    assert forall j :: 0 <= j < |out| ==> SuppliedCost(out[j]) == RowCost(kept[j]);
    SumPairwise(out, kept, SuppliedCost, RowCost);
  }

  lemma {:induction false} SumPairwise<A, B>(a: seq<A>, b: seq<B>, f: A -> real, g: B -> real)
    requires |a| == |b|
    requires forall j :: 0 <= j < |a| ==> f(a[j]) == g(b[j])
    ensures Sum(a, f) == Sum(b, g)
  {
    if |a| > 0 {
      SumPairwise(a[..|a| - 1], b[..|b| - 1], f, g);
    }
  }
}
