/**
 * The names of the database's stock summary views.  A screen reads the
 * head-office view, which spans every branch, only when a head-office user
 * has chosen the cumulative scope; otherwise it reads the branch view.
 * Each view exists for four periods; an unknown period reads today's view.
 */
module Views {

  const HeadOffice: string := "HEAD OFFICE"

  const Periods: seq<string> := ["today", "this_week", "this_month", "this_year"]

  /** The period whose view is read: the chosen one when it is known, else today. */
  function PeriodOrToday(period: string): (p: string)
    ensures p in Periods
    ensures period in Periods ==> p == period
    ensures period !in Periods ==> p == "today"
  {
    if period == "today" then "today"
    else if period == "this_week" then "this_week"
    else if period == "this_month" then "this_month"
    else if period == "this_year" then "this_year"
    else "today"
  }

  /** `admin_<kind>_<period>_view` or `branch_<kind>_<period>_view`. */
  function SummaryView(kind: string, admin: bool, period: string): string
  {
    (if admin then "admin_" else "branch_") + kind + "_" + PeriodOrToday(period) + "_view"
  }

  /**
   * Only the admin choice yields a name starting with `admin_`, and an
   * unknown period reads the same view as "today".
   */
  lemma AdminViewOnlyWhenChosen(kind: string, admin: bool, period: string)
    ensures "admin_" <= SummaryView(kind, admin, period) <==> admin
    ensures period !in Periods ==> SummaryView(kind, admin, period) == SummaryView(kind, admin, "today")
  {
    var v := SummaryView(kind, admin, period);
    if !admin {
      assert v[0] == 'b';
      assert !("admin_" <= v);
    }
  }
}
