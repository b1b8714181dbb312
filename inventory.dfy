/**
 * The materials screen of one branch: the summary view's rows indexed by
 * material, the split of the material list into direct and indirect
 * materials, their stock values, the low-stock colouring and the
 * "add usage" action.
 */
module Inventory {
  import opened Common
  import opened Ledger
  import Views

  datatype RawMaterial = RawMaterial(
    id: Id,
    name: string,
    description: Option<string>,
    unit_price: Option<real>,
    minimum_stock: Option<real>)

  /** getViewName: the admin view only for a head-office user on the "Cumulative" scope. */
  function ViewName(userBranchName: string, selectedBranch: string, timePeriod: string): string
  {
    Views.SummaryView("material", userBranchName == Views.HeadOffice && selectedBranch == "Cumulative", timePeriod)
  }

  lemma ViewNameChoice(userBranchName: string, selectedBranch: string, timePeriod: string)
    ensures "admin_" <= ViewName(userBranchName, selectedBranch, timePeriod)
        <==> userBranchName == Views.HeadOffice && selectedBranch == "Cumulative"
    ensures timePeriod !in Views.Periods
        ==> ViewName(userBranchName, selectedBranch, timePeriod) == ViewName(userBranchName, selectedBranch, "today")
  {
    Views.AdminViewOnlyWhenChosen("material", userBranchName == Views.HeadOffice && selectedBranch == "Cumulative", timePeriod);
  }

  // ------------------------------------------------------------------
  // The summary index and the current quantity.
  // ------------------------------------------------------------------

  function SummaryKey(s: MaterialSummary): Id { s.material_id }
  function WholeRow(s: MaterialSummary): MaterialSummary { s }

  /** summaryByMaterialId: one entry per material id, holding the last row with that id. */
  method SummaryByMaterialId(rows: seq<MaterialSummary>) returns (index: map<Id, MaterialSummary>)
    ensures forall i :: 0 <= i < |rows| ==> rows[i].material_id in index
    ensures forall id :: id in index ==> exists i :: LastWithKey(rows, SummaryKey, i) && rows[i].material_id == id
    ensures forall i :: LastWithKey(rows, SummaryKey, i) ==> index[rows[i].material_id] == rows[i]
  {
    index := BuildIndexWith(rows, SummaryKey, WholeRow);
  }

  /** The current quantity of a material: the balance of its summary row, 0 without one. */
  function CurrentQuantity(index: map<Id, MaterialSummary>, id: Id): (q: real)
    ensures id !in index ==> q == 0.0
    ensures id in index ==> q == MaterialBalance(index[id])
  {
    MaterialBalance(MaterialSummaryOf(index, id))
  }

  // ------------------------------------------------------------------
  // Direct and indirect materials.
  // ------------------------------------------------------------------

  predicate IsIndirect(m: RawMaterial)
  {
    m.description.Some? && Lower(m.description.value) == "indirect"
  }

  /** The name filter: an empty filter shows everything, otherwise a case-insensitive substring test. */
  predicate NameMatches(m: RawMaterial, filterName: string)
  {
    filterName == "" || Includes(Lower(m.name), Lower(filterName))
  }

  function Listed(filterName: string): RawMaterial -> bool
  {
    (m: RawMaterial) => NameMatches(m, filterName)
  }

  function DirectFilter(filterName: string): RawMaterial -> bool
  {
    (m: RawMaterial) => !IsIndirect(m) && NameMatches(m, filterName)
  }

  function IndirectFilter(filterName: string): RawMaterial -> bool
  {
    (m: RawMaterial) => IsIndirect(m) && NameMatches(m, filterName)
  }

  function DirectMaterials(all: seq<RawMaterial>, filterName: string): seq<RawMaterial>
  {
    Filter(all, DirectFilter(filterName))
  }

  function IndirectMaterials(all: seq<RawMaterial>, filterName: string): seq<RawMaterial>
  {
    Filter(all, IndirectFilter(filterName))
  }

  /**
   * The two lists are disjoint and together hold exactly the materials
   * whose name passes the filter; the filter is insensitive to the case of
   * the filter text.
   */
  lemma DirectIndirectPartition(all: seq<RawMaterial>, filterName: string)
    ensures forall m :: m in DirectMaterials(all, filterName) ==> m !in IndirectMaterials(all, filterName)
    ensures forall m :: m in all && NameMatches(m, filterName)
                    <==> m in DirectMaterials(all, filterName) || m in IndirectMaterials(all, filterName)
    ensures forall m :: NameMatches(m, filterName) <==> NameMatches(m, Lower(filterName))
  {
    LowerIdempotent(filterName);
    forall m ensures NameMatches(m, filterName) <==> NameMatches(m, Lower(filterName)) {
      if filterName != "" {
        assert Lower(filterName) != "";
      }
    }
  }

  /** A material's stock value: `(unit_price ?? 0) * currentQuantity`. */
  function ValueIn(index: map<Id, MaterialSummary>): RawMaterial -> real
  {
    (m: RawMaterial) => OrZero(m.unit_price) * CurrentQuantity(index, m.id)
  }

  /** The screen's grand total, over the direct list followed by the indirect list. */
  function TotalValue(index: map<Id, MaterialSummary>, all: seq<RawMaterial>, filterName: string): real
  {
    Sum(DirectMaterials(all, filterName) + IndirectMaterials(all, filterName), ValueIn(index))
  }

  /**
   * The grand total is the direct total plus the indirect total, and it
   * equals the value of all the listed materials, each counted once.
   */
  lemma TotalValueSplits(index: map<Id, MaterialSummary>, all: seq<RawMaterial>, filterName: string)
    ensures TotalValue(index, all, filterName)
         == Sum(DirectMaterials(all, filterName), ValueIn(index)) + Sum(IndirectMaterials(all, filterName), ValueIn(index))
    ensures TotalValue(index, all, filterName) == Sum(Filter(all, Listed(filterName)), ValueIn(index))
  {
    SumAppend(DirectMaterials(all, filterName), IndirectMaterials(all, filterName), ValueIn(index));
    PartitionSum(all, filterName, ValueIn(index));
  }

  lemma {:induction false} PartitionSum(all: seq<RawMaterial>, filterName: string, v: RawMaterial -> real)
    ensures Sum(DirectMaterials(all, filterName), v) + Sum(IndirectMaterials(all, filterName), v)
         == Sum(Filter(all, Listed(filterName)), v)
  {
    if |all| > 0 {
      var init, last := all[..|all| - 1], all[|all| - 1];
      PartitionSum(init, filterName, v);
      SumAppend(DirectMaterials(init, filterName), if DirectFilter(filterName)(last) then [last] else [], v);
      SumAppend(IndirectMaterials(init, filterName), if IndirectFilter(filterName)(last) then [last] else [], v);
      SumAppend(Filter(init, Listed(filterName)), if Listed(filterName)(last) then [last] else [], v);
    }
  }

  // ------------------------------------------------------------------
  // Low stock.
  // ------------------------------------------------------------------

  /** A direct material is shown red at or below its minimum. */
  predicate LowDirect(quantity: real, m: RawMaterial) { quantity <= OrZero(m.minimum_stock) }

  /** An indirect material is shown red only strictly below its minimum. */
  predicate LowIndirect(quantity: real, m: RawMaterial) { quantity < OrZero(m.minimum_stock) }

  /** The two rules disagree exactly on a quantity equal to the minimum. */
  lemma LowStockRules(quantity: real, m: RawMaterial)
    ensures LowIndirect(quantity, m) ==> LowDirect(quantity, m)
    ensures LowDirect(quantity, m) && !LowIndirect(quantity, m) <==> quantity == OrZero(m.minimum_stock)
  {
  }

  // ------------------------------------------------------------------
  // Adding usage.
  // ------------------------------------------------------------------

  datatype UsageRow = UsageRow(material_id: Id, quantity: real, branch_id: Id, cost: real)

  datatype UsageOutcome =
    | InvalidQuantity
    | InsufficientQuantity(available: real)
    | NoUnitCost
    | Recorded(row: UsageRow)
    | InsertFailed

  /** The test of `allMaterials?.find(...)`: the material has the id. */
  function RawWithId(id: Id): RawMaterial -> bool { (m: RawMaterial) => m.id == id }

  /** `material?.unit_price ?? null`: the first material with the id, if it has a price. */
  function UnitCostOf(all: seq<RawMaterial>, id: Id): Option<real>
  {
    var k := FindFirst(all, RawWithId(id));
    if k.Some? then all[k.value].unit_price else None
  }

  /**
   * handleAddUsage's decision for a parsed input (None for NaN): the checks
   * run in the order quantity, availability, price.
   */
  function UsageDecision(index: map<Id, MaterialSummary>, all: seq<RawMaterial>, materialId: Id, branchId: Id,
                         input: Option<real>): (o: UsageOutcome)
    ensures o == InvalidQuantity <==> input.None? || input.value <= 0.0
    ensures o.InsufficientQuantity? <==>
      input.Some? && input.value > 0.0 && input.value > CurrentQuantity(index, materialId)
    ensures o.InsufficientQuantity? ==> o.available == CurrentQuantity(index, materialId)
    ensures o == NoUnitCost <==>
      input.Some? && 0.0 < input.value <= CurrentQuantity(index, materialId) && UnitCostOf(all, materialId).None?
    ensures o.Recorded? <==>
      input.Some? && 0.0 < input.value <= CurrentQuantity(index, materialId) && UnitCostOf(all, materialId).Some?
    ensures o.Recorded? ==>
      o.row == UsageRow(materialId, input.value, branchId, input.value * UnitCostOf(all, materialId).value)
  {
    var current := CurrentQuantity(index, materialId);
    if input.None? || input.value <= 0.0 then InvalidQuantity
    else if input.value > current then InsufficientQuantity(current)
    else
      var unitCost := UnitCostOf(all, materialId);
      if unitCost.None? then NoUnitCost
      else Recorded(UsageRow(materialId, input.value, branchId, input.value * unitCost.value))
  }

  /**
   * Recorded usage never drives the material's balance below zero: once
   * the usage is counted, the balance has dropped by exactly the quantity.
   */
  lemma UsageKeepsStock(index: map<Id, MaterialSummary>, all: seq<RawMaterial>, materialId: Id, branchId: Id,
                        input: Option<real>)
    requires UsageDecision(index, all, materialId, branchId, input).Recorded?
    ensures var q := input.value;
            var after := RecordMaterial(MaterialSummaryOf(index, materialId), MaterialFlow.Used, q);
            MaterialBalance(after) == CurrentQuantity(index, materialId) - q && MaterialBalance(after) >= 0.0
  {
  }

  /** The usage table the action inserts into. */
  class UsageLedger {
    var rows: seq<UsageRow>

    constructor ()
      ensures rows == []
    {
      rows := [];
    }

    /**
     * handleAddUsage: at most one row is inserted, and only when every check
     * passes and the insert succeeds; `insertFails` stands for the insert's
     * error, after which nothing is recorded.
     */
    method AddUsage(index: map<Id, MaterialSummary>, all: seq<RawMaterial>, materialId: Id, branchId: Id,
                    input: Option<real>, insertFails: bool) returns (o: UsageOutcome)
      modifies this
      ensures var d := UsageDecision(index, all, materialId, branchId, input);
              !d.Recorded? ==> o == d && rows == old(rows)
      ensures var d := UsageDecision(index, all, materialId, branchId, input);
              d.Recorded? && insertFails ==> o == InsertFailed && rows == old(rows)
      ensures var d := UsageDecision(index, all, materialId, branchId, input);
              d.Recorded? && !insertFails ==> o == d && rows == old(rows) + [d.row]
    {
      var current := CurrentQuantity(index, materialId);
      if input.None? || input.value <= 0.0 {
        return InvalidQuantity;
      }
      var quantity := input.value;
      if quantity > current {
        return InsufficientQuantity(current);
      }
      var unitCost := UnitCostOf(all, materialId);
      if unitCost.None? {
        return NoUnitCost;
      }
      var row := UsageRow(materialId, quantity, branchId, quantity * unitCost.value);
      if insertFails {
        return InsertFailed;
      }
      rows := rows + [row];
      o := Recorded(row);
    }
  }
}
