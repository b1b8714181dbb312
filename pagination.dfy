/**
 * Paging by `PAGE_LIMIT` rows: the index range of a page, `slice` and
 * `range` windows, and whether a next page exists.
 */
module Pagination {
  const PageLimit: nat := 1000

  /** `from = (page - 1) * PAGE_LIMIT`; pages are numbered from 1. */
  function PageFrom(page: nat): int
    requires page >= 1
  {
    (page - 1) * PageLimit
  }

  /** `to = from + PAGE_LIMIT - 1`, the last index of the page (inclusive). */
  function PageTo(page: nat): int
    requires page >= 1
  {
    PageFrom(page) + PageLimit - 1
  }

  /** `items.slice(from, end)` for `0 <= from`: both ends clamped to the length. */
  function Slice<T>(items: seq<T>, from: nat, end: nat): (r: seq<T>)
    ensures |r| == (if from >= |items| || end <= from then 0 else (if end <= |items| then end else |items|) - from)
    ensures forall j :: 0 <= j < |r| ==> from + j < |items| && r[j] == items[from + j]
  {
    var hi := if end <= |items| then end else |items|;
    if from >= hi then [] else items[from..hi]
  }

  /** The rows of page `page`: indices `from` to `to`, inclusive. */
  function Page<T>(items: seq<T>, page: nat): seq<T>
    requires page >= 1
  {
    Slice(items, PageFrom(page), PageTo(page) + 1)
  }

  /** `count ? to < count : false`, with a null count as 0. */
  function HasNextPageAsWritten(count: nat, page: nat): bool
    requires page >= 1
  {
    count != 0 && PageTo(page) < count
  }

  /** A next page exists when some row lies past this page's last index. */
  function HasNextPage(count: nat, page: nat): bool
    requires page >= 1
  {
    PageTo(page) + 1 < count
  }

  /** The written test reports a next page when this page ends exactly at the last row. */
  lemma FullLastPageReportsNext()
    ensures var rows := seq(1000, i => i);
            HasNextPageAsWritten(|rows|, 1) && |Page(rows, 1)| == 1000 && |Page(rows, 2)| == 0
  {
  }

  /** The two tests differ exactly when the page ends on the last row. */
  lemma AsWrittenDiffersOnlyAtFullPage(count: nat, page: nat)
    requires page >= 1
    ensures HasNextPageAsWritten(count, page) != HasNextPage(count, page) <==> count == PageTo(page) + 1
  {
  }

  /** Consecutive pages: page `p + 1` starts at the row after page `p` ends, and a page holds at most PageLimit rows. */
  lemma PagesTile<T>(items: seq<T>, page: nat)
    requires page >= 1
    ensures PageFrom(page + 1) == PageTo(page) + 1
    ensures |Page(items, page)| <= PageLimit
    ensures HasNextPage(|items|, page) ==> |Page(items, page + 1)| > 0
    ensures !HasNextPage(|items|, page) ==> |Page(items, page + 1)| == 0
  {
  }
}
