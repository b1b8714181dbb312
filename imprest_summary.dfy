/**
 * The weekly imprest summary: the cost of the week's supplied imprests,
 * totalled per branch and paged.
 */
module ImprestSummary {
  import opened Common
  import opened Pagination

  datatype SuppliedRow = SuppliedRow(branch_id: Id, cost: Option<real>)

  datatype BranchTotal = BranchTotal(branch_id: Id, total_cost: real)

  /** `row.branch_id || "unknown"`. */
  function BranchKey(r: SuppliedRow): Id { TextOr(r.branch_id, "unknown") }

  /** `Number(row.cost) || 0`. */
  function RowCost(r: SuppliedRow): real { OrZero(r.cost) }

  function TotalCost(t: BranchTotal): real { t.total_cost }

  function Totals(ids: seq<Id>, totals: map<Id, real>): (es: seq<BranchTotal>)
    ensures |es| == |ids|
    ensures forall j :: 0 <= j < |ids| ==> es[j] == BranchTotal(ids[j], ValueOf(totals)(ids[j]))
  {
    if |ids| == 0 then []
    else Totals(ids[..|ids| - 1], totals) + [BranchTotal(ids[|ids| - 1], ValueOf(totals)(ids[|ids| - 1]))]
  }

  lemma {:induction false} TotalsSum(ids: seq<Id>, totals: map<Id, real>)
    ensures Sum(Totals(ids, totals), TotalCost) == Sum(ids, ValueOf(totals))
  {
    if |ids| > 0 {
      TotalsSum(ids[..|ids| - 1], totals);
      var es := Totals(ids, totals);
      assert es[..|es| - 1] == Totals(ids[..|ids| - 1], totals);
    }
  }

  /** Each branch key once, in order of its first row, with the total cost of its rows. */
  function Summary(rows: seq<SuppliedRow>): seq<BranchTotal>
  {
    var ids := FirstKeys(rows, BranchKey);
    seq(|ids|, j requires 0 <= j < |ids| => BranchTotal(ids[j], KeyTotal(rows, BranchKey, RowCost, ids[j])))
  }

  /** The header: `total_cost || 0` summed over the page's entries. */
  function HeaderTotal(items: seq<BranchTotal>): real
  {
    Sum(items, TotalCost)
  }

  datatype PageResult = PageResult(items: seq<BranchTotal>, hasNextPage: bool)

  /**
   * The source's flag, `count ? to < count : false`, where `count` is the
   * number of rows the query matched; the page itself slices the per-branch
   * entries, of which there are at most that many.
   */
  function RowCountHasNext(rows: seq<SuppliedRow>, page: nat): bool
    requires page >= 1
  {
    HasNextPageAsWritten(|rows|, page)
  }

  /**
   * The query function: the `forEach` that fills `summaryMap`, then one page
   * of its values, with a next page reported exactly when the next page of
   * entries is non-empty. The per-branch totals together hold every row's
   * cost once.
   */
  method SummaryPage(rows: seq<SuppliedRow>, page: nat) returns (r: PageResult)
    requires page >= 1
    ensures r.items == Page(Summary(rows), page)
    ensures r.hasNextPage <==> |Page(Summary(rows), page + 1)| > 0
    ensures Sum(Summary(rows), TotalCost) == Sum(rows, RowCost)
    ensures page == 1 && |Summary(rows)| <= PageLimit ==> HeaderTotal(r.items) == Sum(rows, RowCost)
  {
    var ids, totals := GroupSum(rows, BranchKey, RowCost);
    var items := Totals(ids, totals);
    TotalsSum(ids, totals);
    SummaryIsTotals(rows, ids, totals);
    if page == 1 {
      FirstPageIsAll(items);
    }
    PagesTile(items, page);
    r := PageResult(Slice(items, PageFrom(page), PageTo(page) + 1), HasNextPage(|items|, page));
  }

  /** Rows of one branch give one entry. */
  lemma {:induction false} OneBranchOneEntry(rows: seq<SuppliedRow>, b: Id)
    requires |rows| > 0 && Truthy(b)
    requires forall i :: 0 <= i < |rows| ==> rows[i].branch_id == b
    ensures FirstKeys(rows, BranchKey) == [b]
  {
    if |rows| > 1 {
      var init := rows[..|rows| - 1];
      forall i | 0 <= i < |init| ensures init[i].branch_id == b { assert init[i] == rows[i]; }
      OneBranchOneEntry(init, b);
    }
  }

  /**
   * The source's flag with 1001 rows of one branch: the row count reports a
   * next page, but the summary has one entry and page 2 is empty.
   */
  lemma RowCountFlagsEmptyPage()
    ensures var rows := seq(1001, i => SuppliedRow("b", Some(1.0)));
            RowCountHasNext(rows, 1) && |Summary(rows)| == 1 && Page(Summary(rows), 2) == []
  {
    var rows := seq(1001, i => SuppliedRow("b", Some(1.0)));
    OneBranchOneEntry(rows, "b");
  }

  /** The grouping loop's record, listed in key order, is the summary. */
  lemma SummaryIsTotals(rows: seq<SuppliedRow>, ids: seq<Id>, totals: map<Id, real>)
    requires ids == FirstKeys(rows, BranchKey)
    requires forall k :: ValueOf(totals)(k) == KeyTotal(rows, BranchKey, RowCost, k)
    ensures Totals(ids, totals) == Summary(rows)
  {
  }

  /** A list of at most one page is its own first page. */
  lemma FirstPageIsAll<T>(items: seq<T>)
    ensures |items| <= PageLimit ==> Page(items, 1) == items
  {
  }

  /** The keys are distinct, rows without a branch are under "unknown", and every row's key has an entry. */
  lemma SummaryKeys(rows: seq<SuppliedRow>)
    ensures var ids := FirstKeys(rows, BranchKey);
            Distinct(ids)
            && (forall i :: 0 <= i < |rows| ==> BranchKey(rows[i]) in ids)
            && (forall i :: 0 <= i < |rows| && rows[i].branch_id == "" ==> "unknown" in ids)
  {
    FirstKeysFacts(rows, BranchKey);
  }
}
