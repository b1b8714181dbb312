/**
 * The procurement screen's material-request list: the average weekly
 * usage and current quantity shown per request, the quantity edit of
 * selected requests, and which requests can be selected.
 */
module MaterialRequests {
  import opened Common
  import opened Ledger
  import opened Pagination

  datatype Request = Request(id: Id, material_id: Id, branch_id: Id, status: string)

  // ------------------------------------------------------------------
  // Paging.
  // ------------------------------------------------------------------

  /** `count ? to + 1 < count : false`: this screen's next-page test is the one the pager needs. */
  function RequestsHasNextPage(count: nat, page: nat): (b: bool)
    requires page >= 1
    ensures b == HasNextPage(count, page)
    ensures b <==> page * PageLimit < count
  {
    count != 0 && PageTo(page) + 1 < count
  }

  // ------------------------------------------------------------------
  // Average weekly usage.
  // ------------------------------------------------------------------

  /** The usage query's answer: an error, or the rows' `quantity` column (the data itself may be null). */
  datatype UsageQuery = UsageError | UsageRows(data: Option<seq<Option<real>>>)

  function UsageOf(q: Option<real>): real { OrIfFalsy(q, 0.0) }

  /**
   * fetchAverageWeeklyUsage: null when the query fails; otherwise the
   * usage of the last 30 days over 4 (`reduce(...) || 0`, with null rows as 0).
   */
  function AverageWeeklyUsage(q: UsageQuery): (avg: Option<real>)
    ensures q.UsageError? <==> avg.None?
    ensures q.UsageRows? && q.data.None? ==> avg == Some(0.0)
    ensures q.UsageRows? && q.data.Some? ==> avg == Some(Sum(q.data.value, UsageOf) / 4.0)
  {
    if q.UsageError? then None
    else
      var total := if q.data.Some? then Sum(q.data.value, UsageOf) else 0.0;
      Some(total / 4.0)
  }

  /** The shown value, `avg ?? 0`: four weeks of usage is four times it. */
  lemma AverageTimesFour(q: UsageQuery)
    requires q.UsageRows? && q.data.Some?
    ensures 4.0 * AverageWeeklyUsage(q).GetOr(0.0) == Sum(q.data.value, UsageOf)
  {
  }

  // ------------------------------------------------------------------
  // Current quantity per request.
  // ------------------------------------------------------------------

  /** The `summaryMap` key: `${material_id}_${branch_id}`. */
  function PairKey(material: Id, branch: Id): string
  {
    material + "_" + branch
  }

  function SummaryKeyOf(s: MaterialSummary): string { PairKey(s.material_id, s.branch_id) }

  function SummaryRow(s: MaterialSummary): MaterialSummary { s }

  function SummaryByPair(rows: seq<MaterialSummary>): map<string, MaterialSummary>
  {
    IndexWith(rows, SummaryKeyOf, SummaryRow)
  }

  function SummaryLookup(index: map<string, MaterialSummary>, k: string): MaterialSummary
  {
    if k in index then index[k] else NoMaterialSummary
  }

  function RequestId(r: Request): Id { r.id }

  function QuantityWith(index: map<string, MaterialSummary>): Request -> real
  {
    (r: Request) => MaterialBalance(SummaryLookup(index, PairKey(r.material_id, r.branch_id)))
  }

  /**
   * fetchCurrentQuantities: the `forEach` that fills `summaryMap` (last row
   * per key wins), then `Object.fromEntries` of each request's 7-term
   * balance, a request without a summary row getting that of an empty one.
   */
  method CurrentQuantities(requests: seq<Request>, rows: seq<MaterialSummary>) returns (qty: map<Id, real>)
    ensures forall id :: id in qty <==> exists i :: 0 <= i < |requests| && requests[i].id == id
    ensures forall i :: LastWithKey(requests, RequestId, i) ==>
              qty[requests[i].id] == MaterialBalance(SummaryLookup(SummaryByPair(rows), PairKey(requests[i].material_id, requests[i].branch_id)))
  {
    var index := BuildIndexWith(rows, SummaryKeyOf, SummaryRow);
    qty := IndexWith(requests, RequestId, QuantityWith(index));
    IndexWithKeys(requests, RequestId, QuantityWith(index));
    forall i | LastWithKey(requests, RequestId, i)
      ensures qty[requests[i].id] == QuantityWith(index)(requests[i])
    {
      IndexWithLastWins(requests, RequestId, QuantityWith(index), i);
    }
  }

  /** A request whose pair has no summary row shows 0. */
  lemma MissingSummaryIsZero(index: map<string, MaterialSummary>, r: Request)
    requires PairKey(r.material_id, r.branch_id) !in index
    ensures QuantityWith(index)(r) == 0.0
  {
  }

  predicate NoUnderscore(s: string) { forall i :: 0 <= i < |s| ==> s[i] != '_' }

  /**
   * When material ids carry no `_` (UUIDs do not), the joined key names
   * exactly one (material, branch) pair, so a request reads the summary of
   * its own material in its own branch.
   */
  lemma {:induction false} PairKeyInjective(m1: Id, b1: Id, m2: Id, b2: Id)
    requires NoUnderscore(m1) && NoUnderscore(m2)
    ensures PairKey(m1, b1) == PairKey(m2, b2) <==> m1 == m2 && b1 == b2
  {
    if |m1| < |m2| {
      ShorterMaterialDiffers(m1, b1, m2, b2);
    } else if |m2| < |m1| {
      ShorterMaterialDiffers(m2, b2, m1, b1);
    } else if PairKey(m1, b1) == PairKey(m2, b2) {
      var k1, k2 := PairKey(m1, b1), PairKey(m2, b2);
      assert m1 == k1[..|m1|] == k2[..|m2|] == m2;
      assert b1 == k1[|m1| + 1..] == k2[|m2| + 1..] == b2;
    }
  }

  lemma ShorterMaterialDiffers(m1: Id, b1: Id, m2: Id, b2: Id)
    requires NoUnderscore(m2) && |m1| < |m2|
    ensures PairKey(m1, b1) != PairKey(m2, b2)
  {
    assert PairKey(m1, b1)[|m1|] == '_';
    assert PairKey(m2, b2)[|m1|] == m2[|m1|];
  }

  /** Without that assumption two pairs can share a key: material "a_b" in branch "c" and material "a" in branch "b_c". */
  lemma PairKeysCanCollide()
    ensures PairKey("a_b", "c") == PairKey("a", "b_c")
  {
  }

  // ------------------------------------------------------------------
  // Editing the quantity of requests.
  // ------------------------------------------------------------------

  /**
   * The quantity text of an edit item (the dialog is given `String(quantity)`):
   * empty (falsy), a text `Number` reads as NaN, or one it reads as a number.
   * A non-empty text is truthy, so "0" and blank text (read as 0) are numbers.
   */
  datatype FormQuantity = Empty | NotANumber | Number(value: real)

  datatype EditItem = EditItem(id: Id, quantity: FormQuantity)

  datatype Update = Update(id: Id, quantity: real)

  /** `item.quantity && !isNaN(Number(item.quantity))`: a non-empty text that reads as a number, 0 included. */
  predicate UsableQuantity(item: EditItem)
  {
    item.quantity.Number?
  }

  function Usable(): EditItem -> bool { (item: EditItem) => UsableQuantity(item) }

  /** `{ id, quantity: Number(item.quantity) }` for a usable item. */
  function UpdateOf(item: EditItem): Update
  {
    Update(item.id, if item.quantity.Number? then item.quantity.value else 0.0)
  }

  /** `itemsToUpdate`: the usable items, in order, as (id, quantity). */
  function ItemsToUpdate(items: seq<EditItem>): (r: seq<Update>)
    ensures |r| == |Filter(items, Usable())|
    ensures forall j :: 0 <= j < |r| ==> r[j] == UpdateOf(Filter(items, Usable())[j])
  {
    var kept := Filter(items, Usable());
    seq(|kept|, j requires 0 <= j < |kept| => UpdateOf(kept[j]))
  }

  /**
   * Every update carries the number entered for one of the items, and there
   * are none exactly when every item's text is empty or NaN.
   */
  lemma ItemsToUpdateMeaning(items: seq<EditItem>)
    ensures forall j :: 0 <= j < |ItemsToUpdate(items)| ==>
              exists i :: 0 <= i < |items| && items[i] == EditItem(ItemsToUpdate(items)[j].id, Number(ItemsToUpdate(items)[j].quantity))
    ensures |ItemsToUpdate(items)| == 0 <==> forall i :: 0 <= i < |items| ==> items[i].quantity.Empty? || items[i].quantity.NotANumber?
  {
    var kept := Filter(items, Usable());
    var us := ItemsToUpdate(items);
    forall j | 0 <= j < |us|
      ensures exists i :: 0 <= i < |items| && items[i] == EditItem(us[j].id, Number(us[j].quantity))
    {
      assert kept[j] in kept;
      var i :| 0 <= i < |items| && items[i] == kept[j];
    }
    forall i | 0 <= i < |items| && UsableQuantity(items[i])
      ensures |us| > 0
    {
      assert items[i] in kept;
    }
    if |kept| > 0 {
      assert kept[0] in kept;
      var i :| 0 <= i < |items| && items[i] == kept[0];
      assert items[i].quantity.Number?;
    }
  }

  /** The rows after `update({ quantity }).eq("id", id)` for the given updates: a missing id matches no row. */
  function Applied(table: map<Id, real>, us: seq<Update>): map<Id, real>
  {
    if |us| == 0 then table
    else
      var prev := Applied(table, us[..|us| - 1]);
      var u := us[|us| - 1];
      if u.id in prev then prev[u.id := u.quantity] else prev
  }

  datatype EditOutcome = NoChanges | EditFailed(at: nat) | Edited(count: nat)

  /** The `material_requests.quantity` column, changed by the edit. */
  class RequestTable {
    var quantity: map<Id, real>

    constructor (rows: map<Id, real>)
      ensures quantity == rows
    {
      quantity := rows;
    }

    /**
     * handleEditRequest: nothing without a usable quantity; otherwise one
     * update after another, the update at position `failAt` (if any) throwing
     * and leaving it and the later ones undone.
     */
    method HandleEditRequest(items: seq<EditItem>, failAt: Option<nat>) returns (o: EditOutcome)
      modifies this
      ensures var us := ItemsToUpdate(items);
              && (|us| == 0 ==> o == NoChanges && quantity == old(quantity))
              && (|us| > 0 && failAt.Some? && failAt.value < |us| ==>
                    o == EditFailed(failAt.value) && quantity == Applied(old(quantity), us[..failAt.value]))
              && (|us| > 0 && !(failAt.Some? && failAt.value < |us|) ==>
                    o == Edited(|us|) && quantity == Applied(old(quantity), us))
    {
      var us := ItemsToUpdate(items);
      if |us| == 0 {
        return NoChanges;
      }
      ghost var q0 := quantity;
      var i := 0;
      while i < |us|
        invariant 0 <= i <= |us|
        invariant failAt.Some? ==> failAt.value >= i
        invariant quantity == Applied(q0, us[..i])
      {
        if failAt == Some(i) {
          return EditFailed(i);
        }
        assert us[..i + 1][..i] == us[..i];
        if us[i].id in quantity {
          quantity := quantity[us[i].id := us[i].quantity];
        }
        i := i + 1;
      }
      assert us[..i] == us;
      return Edited(|us|);
    }
  }

  /** Updating leaves the other requests as they were and gives each updated one the last quantity entered for it. */
  lemma {:induction false} AppliedMeaning(table: map<Id, real>, us: seq<Update>, id: Id)
    ensures id in Applied(table, us) <==> id in table
    ensures id in table && (forall j :: 0 <= j < |us| ==> us[j].id != id) ==> Applied(table, us)[id] == table[id]
    ensures forall j :: 0 <= j < |us| && us[j].id == id && id in table && (forall l :: j < l < |us| ==> us[l].id != id) ==>
              Applied(table, us)[id] == us[j].quantity
  {
    if |us| > 0 {
      var init := us[..|us| - 1];
      AppliedMeaning(table, init, id);
      forall j | 0 <= j < |init| ensures init[j] == us[j] { }
    }
  }

  /** The items whose text is empty or NaN are never written. */
  lemma UnusableNeverWritten(items: seq<EditItem>, i: nat)
    requires i < |items| && (items[i].quantity.Empty? || items[i].quantity.NotANumber?)
    ensures items[i] !in Filter(items, Usable())
  {
  }

  /** Every item whose text reads as a number is written, in order; an entered "0" sets the quantity to 0. */
  lemma {:induction false} NumbersAllWritten(items: seq<EditItem>)
    requires forall i :: 0 <= i < |items| ==> items[i].quantity.Number?
    ensures ItemsToUpdate(items) == seq(|items|, i requires 0 <= i < |items| => Update(items[i].id, items[i].quantity.value))
  {
    FilterAll(items, Usable());
  }

  /** An item edited to "0" sets its request to 0. */
  lemma ZeroIsWritten(id: Id)
    ensures ItemsToUpdate([EditItem(id, Number(0.0))]) == [Update(id, 0.0)]
  {
    NumbersAllWritten([EditItem(id, Number(0.0))]);
  }

  // ------------------------------------------------------------------
  // Selection.
  // ------------------------------------------------------------------

  /** The checkbox is enabled only for a pending or rejected request. */
  predicate Selectable(r: Request)
  {
    r.status in ["pending", "rejected"]
  }

  lemma SelectableStatuses(r: Request)
    ensures Selectable(r) <==> r.status == "pending" || r.status == "rejected"
  {
  }
}
