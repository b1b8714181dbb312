/**
 * The branch's material-request page: the requests of the user's branch in
 * the chosen period, the items handed to the finalize dialog, which
 * requests can be ticked, and the supplied rows the dialog records.
 */
module MaterialRequestPage {
  import opened Common
  import opened Calendar
  import MaterialRequests

  datatype MaterialJoin = MaterialJoin(name: string, unit: string, unit_price: real)

  datatype Request = Request(
    id: Id, material_id: Id, branch_id: Id, created_at: int, status: string, quantity: real,
    material: Option<MaterialJoin>, order_id: Option<Id>)

  // ------------------------------------------------------------------
  // The list.
  // ------------------------------------------------------------------

  function OfBranchIn(branch: Id, w: Interval): Request -> bool
  {
    (r: Request) => r.branch_id == branch && w.Contains(r.created_at)
  }

  /**
   * filteredRequests: with no branch, nothing; otherwise the fetched
   * requests (`?? []`) of the branch created inside the period, bounds
   * included. `w` is getPeriodRange's window.
   */
  function FilteredRequests(branch: Id, data: Option<seq<Request>>, w: Interval): (r: seq<Request>)
    ensures !Truthy(branch) ==> r == []
    ensures forall x :: x in r <==> Truthy(branch) && data.Some? && x in data.value && x.branch_id == branch && w.start <= x.created_at <= w.end
  {
    if !Truthy(branch) then [] else Filter(if data.Some? then data.value else [], OfBranchIn(branch, w))
  }

  /** The list keeps the page's order. */
  lemma FilteredKeepsOrder(branch: Id, rows: seq<Request>, w: Interval, i: nat)
    requires Truthy(branch) && i <= |rows|
    ensures FilteredRequests(branch, Some(rows[..i]), w) + FilteredRequests(branch, Some(rows[i..]), w)
         == FilteredRequests(branch, Some(rows), w)
  {
    assert rows == rows[..i] + rows[i..];
    FilterAppend(rows[..i], rows[i..], OfBranchIn(branch, w));
  }

  /** `calculateTotalCost(quantity, unitPrice)`. */
  function TotalCost(quantity: real, unitPrice: real): real { quantity * unitPrice }

  // ------------------------------------------------------------------
  // Ticking requests.
  // ------------------------------------------------------------------

  /** A row's checkbox is disabled (and shown ticked) for supplied and pending requests. */
  predicate Disabled(r: Request)
  {
    r.status in ["supplied", "pending"]
  }

  /** The row's checkbox state: ticked when selected, or when disabled. */
  function Checked(selected: seq<Id>, r: Request): (b: bool)
    ensures Disabled(r) ==> b
    ensures !Disabled(r) ==> (b <==> r.id in selected)
  {
    r.id in selected || Disabled(r)
  }

  /**
   * A pending request can be ticked on the procurement list but not here,
   * a rejected one on both, an approved one only here, and a supplied one on
   * neither screen.
   */
  lemma SelectionAcrossScreens(r: Request, p: MaterialRequests.Request)
    requires p.status == r.status
    ensures r.status == "pending" ==> MaterialRequests.Selectable(p) && Disabled(r)
    ensures r.status == "rejected" ==> MaterialRequests.Selectable(p) && !Disabled(r)
    ensures r.status == "supplied" ==> !MaterialRequests.Selectable(p) && Disabled(r)
    ensures r.status == "approved" ==> !MaterialRequests.Selectable(p) && !Disabled(r)
  {
  }

  // ------------------------------------------------------------------
  // The finalize dialog.
  // ------------------------------------------------------------------

  /** An item of the dialog: the request's material, order, name, quantity and unit. */
  datatype FinalizeItem = FinalizeItem(id: Id, order_id: Option<Id>, name: Option<string>, quantity: real, unit: Option<string>)

  function ItemOf(r: Request): FinalizeItem
  {
    FinalizeItem(r.material_id, r.order_id,
                 if r.material.Some? then Some(r.material.value.name) else None,
                 r.quantity,
                 if r.material.Some? then Some(r.material.value.unit) else None)
  }

  /** The test of `requests.find(...)`: the request has the id and is not supplied. */
  function UnsuppliedWithId(id: Id): Request -> bool { (r: Request) => r.id == id && r.status != "supplied" }

  /** The dialog's items: for each selected id in selection order, the found request, dropping ids not found. */
  function FinalizeItems(selected: seq<Id>, rs: seq<Request>): seq<FinalizeItem>
  {
    if |selected| == 0 then []
    else
      var prev := FinalizeItems(selected[..|selected| - 1], rs);
      var found := Find(rs, UnsuppliedWithId(selected[|selected| - 1]));
      if found.Some? then prev + [ItemOf(found.value)] else prev
  }

  /**
   * Every item comes from a selected request on the page that is not yet
   * supplied, and there is one item per selected id that has one.
   */
  lemma {:induction false} FinalizeItemsMeaning(selected: seq<Id>, rs: seq<Request>)
    ensures forall x :: x in FinalizeItems(selected, rs) ==>
              exists r :: r in rs && r.id in selected && r.status != "supplied" && x == ItemOf(r)
    ensures |FinalizeItems(selected, rs)|
         == |Filter(selected, HasUnsupplied(rs))|
  {
    if |selected| > 0 {
      var init := selected[..|selected| - 1];
      var id := selected[|selected| - 1];
      FinalizeItemsMeaning(init, rs);
      forall x | x in FinalizeItems(selected, rs)
        ensures exists r :: r in rs && r.id in selected && r.status != "supplied" && x == ItemOf(r)
      {
        if x in FinalizeItems(init, rs) {
          var r :| r in rs && r.id in init && r.status != "supplied" && x == ItemOf(r);
          assert r.id in selected;
        } else {
          var r := Find(rs, UnsuppliedWithId(id)).value;
          assert r.id in selected;
        }
      }
      FilterStep(selected, |selected| - 1, HasUnsupplied(rs));
      assert selected[..|selected|] == selected;
    }
  }

  function HasUnsupplied(rs: seq<Request>): Id -> bool
  {
    (id: Id) => Find(rs, UnsuppliedWithId(id)).Some?
  }

  /** Ticking an id whose requests on the page are all supplied (or that is not on the page) adds no item. */
  lemma SuppliedNeverFinalized(selected: seq<Id>, rs: seq<Request>, id: Id)
    requires forall r :: r in rs && r.id == id ==> r.status == "supplied"
    ensures FinalizeItems(selected + [id], rs) == FinalizeItems(selected, rs)
  {
    assert (selected + [id])[..|selected|] == selected;
  }

  // ------------------------------------------------------------------
  // The supplied rows.
  // ------------------------------------------------------------------

  /** A `procurement_supplied` row; the quantity went through `String` and back through `Number`. */
  datatype SuppliedRow = SuppliedRow(
    branch_id: Option<Id>, name: Option<string>, quantity: real, status: string, unit: Option<string>,
    material_order_id: Option<Id>, material_id: Id, user_id: Option<Id>)

  function SuppliedRowOf(branch: Option<Id>, user: Option<Id>, x: FinalizeItem): SuppliedRow
  {
    SuppliedRow(branch, x.name, x.quantity, "supplied", x.unit, x.order_id, x.id, user)
  }

  /** handleFinalizeOrder's `new_items`: one row per item, in order. */
  function SuppliedRows(branch: Option<Id>, user: Option<Id>, items: seq<FinalizeItem>): (rows: seq<SuppliedRow>)
    ensures |rows| == |items|
    ensures forall i :: 0 <= i < |items| ==> rows[i] == SuppliedRowOf(branch, user, items[i])
  {
    if |items| == 0 then [] else SuppliedRows(branch, user, items[..|items| - 1]) + [SuppliedRowOf(branch, user, items[|items| - 1])]
  }

  /**
   * Every recorded row is "supplied", belongs to the user's branch, and
   * carries the material, order and quantity of the request it came from.
   */
  lemma SuppliedRowsMeaning(branch: Option<Id>, user: Option<Id>, selected: seq<Id>, rs: seq<Request>)
    ensures forall s :: s in SuppliedRows(branch, user, FinalizeItems(selected, rs)) ==>
              s.status == "supplied" && s.branch_id == branch
              && exists r :: r in rs && r.id in selected && r.status != "supplied"
                   && s.material_id == r.material_id && s.material_order_id == r.order_id && s.quantity == r.quantity
  {
    var items := FinalizeItems(selected, rs);
    FinalizeItemsMeaning(selected, rs);
    var rows := SuppliedRows(branch, user, items);
    forall s | s in rows
      ensures s.status == "supplied" && s.branch_id == branch
      ensures exists r :: r in rs && r.id in selected && r.status != "supplied"
                && s.material_id == r.material_id && s.material_order_id == r.order_id && s.quantity == r.quantity
    {
      var i :| 0 <= i < |rows| && rows[i] == s;
      assert items[i] in items;
      var r :| r in rs && r.id in selected && r.status != "supplied" && items[i] == ItemOf(r);
    }
  }
}
