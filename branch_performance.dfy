/**
 * The branch profitability chart: revenue, cost, profit and cost/revenue
 * ratio per branch, sorted by profit, drawn as a diverging bar chart.
 */
module BranchPerformance {
  import opened Common
  import opened Accounts
  import opened Sorting

  datatype Branch = Branch(id: Id, name: string)

  datatype BranchMetric = BranchMetric(name: string, revenue: real, cost: real, profit: real, costToRevenueRatio: real)

  function BranchId(b: Branch): Id { b.id }
  function BranchName(b: Branch): string { b.name }
  function SaleBranch(s: Sale): Id { s.branch_id }
  function RowBranch(r: CostRow): Id { r.branch_id }

  // ------------------------------------------------------------------
  // What each branch's entry should hold.
  // ------------------------------------------------------------------

  /** The branches' ids, each once, in the order `map[branch.id] = ...` first creates them. */
  function BranchKeys(branches: seq<Branch>): seq<Id> { FirstKeys(branches, BranchId) }

  /** `map[branch.id] = { name: branch.name, ... }`: a later branch with the same id renames the entry. */
  function NameOf(branches: seq<Branch>, id: Id): string
  {
    var names := IndexWith(branches, BranchId, BranchName);
    if id in names then names[id] else ""
  }

  /** `sumCost(arr, branchId)`: the costs of the rows of that branch. */
  function BranchBucketCost(rows: seq<CostRow>, id: Id): real { KeyTotal(rows, RowBranch, RowCost, id) }

  function BranchBucketsCost(b: CostBuckets, id: Id): real
  {
    BranchBucketCost(b.complimentary, id) + BranchBucketCost(b.damage, id) + BranchBucketCost(b.imprest, id)
      + BranchBucketCost(b.materialDamage, id) + BranchBucketCost(b.indirectMaterial, id)
  }

  function BranchRevenue(sales: seq<Sale>, id: Id): real { KeyTotal(sales, SaleBranch, SaleRevenue, id) }
  function BranchSaleCost(sales: seq<Sale>, id: Id): real { KeyTotal(sales, SaleBranch, SaleCost, id) }

  /** A branch's figures: its own sales' lines and its own bucket rows, and nothing else. */
  function Expected(branches: seq<Branch>, sales: seq<Sale>, buckets: CostBuckets, id: Id): BranchMetric
  {
    var revenue := BranchRevenue(sales, id);
    var cost := BranchSaleCost(sales, id) + BranchBucketsCost(buckets, id);
    BranchMetric(NameOf(branches, id), revenue, cost, revenue - cost, CostToRevenueRatio(cost, revenue))
  }

  // ------------------------------------------------------------------
  // The three loops of branchMetrics.
  // ------------------------------------------------------------------

  lemma NameStep(branches: seq<Branch>, i: nat)
    requires i < |branches|
    ensures IndexWith(branches[..i + 1], BranchId, BranchName)
         == IndexWith(branches[..i], BranchId, BranchName)[branches[i].id := branches[i].name]
  {
    assert branches[..i + 1][..i] == branches[..i];
  }

  /** A zeroed entry per named id. */
  function Zeroed(names: map<Id, string>): map<Id, BranchMetric>
  {
    map k | k in names :: BranchMetric(names[k], 0.0, 0.0, 0.0, 0.0)
  }

  /** The ids `map` holds are the ids of the key order. */
  lemma NamedAreKeys(branches: seq<Branch>)
    ensures forall k :: k in IndexWith(branches, BranchId, BranchName) <==> k in FirstKeys(branches, BranchId)
  {
    FirstKeysFacts(branches, BranchId);
  }

  /** One step of the loop, on the key order and on the names. */
  lemma InitStep(branches: seq<Branch>, i: nat)
    requires i < |branches|
    ensures var b := branches[i];
            FirstKeys(branches[..i + 1], BranchId)
            == if b.id in IndexWith(branches[..i], BranchId, BranchName) then FirstKeys(branches[..i], BranchId)
               else FirstKeys(branches[..i], BranchId) + [b.id]
    ensures IndexWith(branches[..i + 1], BranchId, BranchName)
         == IndexWith(branches[..i], BranchId, BranchName)[branches[i].id := branches[i].name]
  {
    NamedAreKeys(branches[..i]);
    OrderStep(branches, BranchId, i);
    NameStep(branches, i);
  }

  /** `(branches || []).forEach(...)`: one zeroed entry per branch id. */
  method InitEntries(branches: seq<Branch>) returns (keys: seq<Id>, m: map<Id, BranchMetric>)
    ensures keys == BranchKeys(branches) && Distinct(keys)
    ensures forall k :: k in m <==> k in keys
    ensures forall k :: k in m ==> m[k] == BranchMetric(NameOf(branches, k), 0.0, 0.0, 0.0, 0.0)
  {
    keys, m := [], map[];
    ghost var names: map<Id, string> := map[];
    var i := 0;
    while i < |branches|
      invariant 0 <= i <= |branches|
      invariant keys == FirstKeys(branches[..i], BranchId)
      invariant names == IndexWith(branches[..i], BranchId, BranchName)
      invariant m == Zeroed(names)
    {
      InitStep(branches, i);
      var b := branches[i];
      if b.id !in m {
        keys := keys + [b.id];
      }
      m := m[b.id := BranchMetric(b.name, 0.0, 0.0, 0.0, 0.0)];
      names := names[b.id := b.name];
      i := i + 1;
    }
    assert branches[..i] == branches;
    NamedAreKeys(branches);
    FirstKeysFacts(branches, BranchId);
  }

  lemma KeyTotalStep<T>(rows: seq<T>, key: T -> Id, amount: T -> real, i: nat, k: Id)
    requires i < |rows|
    ensures KeyTotal(rows[..i + 1], key, amount, k)
         == KeyTotal(rows[..i], key, amount, k) + (if key(rows[i]) == k then amount(rows[i]) else 0.0)
  {
    SumSnoc(rows, i, AmountWithKey(key, amount, k));
  }

  /** The items of one sale added into its branch's entry. */
  method AddSale(m: map<Id, BranchMetric>, sale: Sale) returns (m': map<Id, BranchMetric>)
    requires sale.branch_id in m
    ensures m'.Keys == m.Keys
    ensures forall k :: k in m && k != sale.branch_id ==> m'[k] == m[k]
    ensures m'[sale.branch_id] == m[sale.branch_id].(revenue := m[sale.branch_id].revenue + SaleRevenue(sale),
                                                     cost := m[sale.branch_id].cost + SaleCost(sale))
  {
    var b, items := sale.branch_id, sale.items;
    m' := m;
    var j := 0;
    while j < |items|
      invariant 0 <= j <= |items|
      invariant m'.Keys == m.Keys
      invariant forall k :: k in m && k != b ==> m'[k] == m[k]
      invariant m'[b] == m[b].(revenue := m[b].revenue + Sum(items[..j], Subtotal), cost := m[b].cost + Sum(items[..j], LineCost))
    {
      SumSnoc(items, j, Subtotal);
      SumSnoc(items, j, LineCost);
      m' := m'[b := m'[b].(revenue := m'[b].revenue + OrZero(items[j].subtotal),
                           cost := m'[b].cost + OrZero(items[j].total_cost))];
      j := j + 1;
    }
    assert items[..j] == items;
  }

  /** `(salesData || []).forEach(...)`: each sale's items go to its branch; other sales are skipped. */
  method AddSales(branches: seq<Branch>, m0: map<Id, BranchMetric>, sales: seq<Sale>) returns (m: map<Id, BranchMetric>)
    requires forall k :: k in m0 ==> m0[k] == BranchMetric(NameOf(branches, k), 0.0, 0.0, 0.0, 0.0)
    ensures m.Keys == m0.Keys
    ensures forall k :: k in m ==> m[k] == BranchMetric(NameOf(branches, k), BranchRevenue(sales, k), BranchSaleCost(sales, k), 0.0, 0.0)
  {
    m := m0;
    var i := 0;
    while i < |sales|
      invariant 0 <= i <= |sales|
      invariant m.Keys == m0.Keys
      invariant forall k :: k in m ==> m[k] == BranchMetric(NameOf(branches, k), BranchRevenue(sales[..i], k), BranchSaleCost(sales[..i], k), 0.0, 0.0)
    {
      forall k ensures BranchRevenue(sales[..i + 1], k) == BranchRevenue(sales[..i], k) + (if sales[i].branch_id == k then SaleRevenue(sales[i]) else 0.0)
                  && BranchSaleCost(sales[..i + 1], k) == BranchSaleCost(sales[..i], k) + (if sales[i].branch_id == k then SaleCost(sales[i]) else 0.0)
      {
        KeyTotalStep(sales, SaleBranch, SaleRevenue, i, k);
        KeyTotalStep(sales, SaleBranch, SaleCost, i, k);
      }
      if sales[i].branch_id in m {
        m := AddSale(m, sales[i]);
      }
      i := i + 1;
    }
    assert sales[..i] == sales;
  }

  /** `Object.keys(map).forEach(...)`: the buckets, the profit and the ratio of every entry. */
  method Finish(branches: seq<Branch>, sales: seq<Sale>, buckets: CostBuckets, keys: seq<Id>, m0: map<Id, BranchMetric>)
    returns (m: map<Id, BranchMetric>)
    requires Distinct(keys) && forall k :: k in m0 <==> k in keys
    requires forall k :: k in m0 ==> m0[k] == BranchMetric(NameOf(branches, k), BranchRevenue(sales, k), BranchSaleCost(sales, k), 0.0, 0.0)
    ensures m.Keys == m0.Keys
    ensures forall k :: k in m ==> m[k] == Expected(branches, sales, buckets, k)
  {
    m := m0;
    var i := 0;
    while i < |keys|
      invariant 0 <= i <= |keys|
      invariant m.Keys == m0.Keys
      invariant forall j :: 0 <= j < i ==> m[keys[j]] == Expected(branches, sales, buckets, keys[j])
      invariant forall j :: i <= j < |keys| ==> m[keys[j]] == m0[keys[j]]
    {
      var b := keys[i];
      var e := FinishEntry(branches, sales, buckets, b, m[b]);
      m := m[b := e];
      i := i + 1;
    }
  }

  /** One entry of the loop: the five bucket costs of its branch, then profit and ratio. */
  method FinishEntry(branches: seq<Branch>, sales: seq<Sale>, buckets: CostBuckets, b: Id, e0: BranchMetric)
    returns (e: BranchMetric)
    requires e0 == BranchMetric(NameOf(branches, b), BranchRevenue(sales, b), BranchSaleCost(sales, b), 0.0, 0.0)
    ensures e == Expected(branches, sales, buckets, b)
  {
    e := e0;
    e := e.(cost := e.cost + BranchBucketCost(buckets.complimentary, b));
    e := e.(cost := e.cost + BranchBucketCost(buckets.damage, b));
    e := e.(cost := e.cost + BranchBucketCost(buckets.imprest, b));
    e := e.(cost := e.cost + BranchBucketCost(buckets.materialDamage, b));
    e := e.(cost := e.cost + BranchBucketCost(buckets.indirectMaterial, b));
    e := e.(profit := e.revenue - e.cost);
    e := e.(costToRevenueRatio := if e.revenue > 0.0 then e.cost / e.revenue * 100.0 else 0.0);
  }

  /**
   * branchMetrics: one entry per distinct branch id, in the order the
   * branches list first names them, each holding exactly its branch's
   * figures.
   */
  method BranchMetrics(branches: seq<Branch>, sales: seq<Sale>, buckets: CostBuckets) returns (metrics: seq<BranchMetric>)
    ensures |metrics| == |BranchKeys(branches)|
    ensures forall j :: 0 <= j < |metrics| ==> metrics[j] == Expected(branches, sales, buckets, BranchKeys(branches)[j])
  {
    var keys, m := InitEntries(branches);
    m := AddSales(branches, m, sales);
    m := Finish(branches, sales, buckets, keys, m);
    metrics := seq(|keys|, j requires 0 <= j < |keys| => m[keys[j]]);
  }

  function Profit(b: BranchMetric): real { b.profit }

  /** `branchMetrics.sort((a, b) => b.profit - a.profit)`, in place. */
  method SortByProfit(a: array<BranchMetric>)
    modifies a
    ensures NonIncreasing(a[..], Profit)
    ensures multiset(a[..]) == multiset(old(a[..]))
  {
    SortDescending(a, Profit);
  }

  // ------------------------------------------------------------------
  // Properties of the entries.
  // ------------------------------------------------------------------

  /** A sale or cost row of a branch that is not listed changes no entry. */
  lemma UnlistedBranchIgnored(branches: seq<Branch>, sales: seq<Sale>, buckets: CostBuckets, s: Sale, c: CostRow, id: Id)
    requires id in BranchKeys(branches) && s.branch_id !in BranchKeys(branches) && c.branch_id !in BranchKeys(branches)
    ensures Expected(branches, sales + [s], buckets, id) == Expected(branches, sales, buckets, id)
    ensures Expected(branches, sales, buckets.(imprest := buckets.imprest + [c]), id) == Expected(branches, sales, buckets, id)
  {
    var ss := sales + [s];
    assert ss[..|sales|] == sales;
    KeyTotalStep(ss, SaleBranch, SaleRevenue, |sales|, id);
    KeyTotalStep(ss, SaleBranch, SaleCost, |sales|, id);
    var cs := buckets.imprest + [c];
    assert cs[..|buckets.imprest|] == buckets.imprest;
    KeyTotalStep(cs, RowBranch, RowCost, |buckets.imprest|, id);
  }

  /** Each entry's profit is revenue minus cost; its ratio is 0 without revenue and above 100 exactly at a loss. */
  lemma EntryMeaning(branches: seq<Branch>, sales: seq<Sale>, buckets: CostBuckets, id: Id)
    ensures var e := Expected(branches, sales, buckets, id);
            e.profit == e.revenue - e.cost
            && (e.revenue <= 0.0 ==> e.costToRevenueRatio == 0.0)
            && (e.revenue > 0.0 ==> (e.costToRevenueRatio > 100.0 <==> e.profit < 0.0))
  {
    var e := Expected(branches, sales, buckets, id);
    RatioMeaning(e.cost, e.revenue, 75.0);
  }

  /** A branch with no sales and no cost rows stays at zero. */
  lemma QuietBranchIsZero(branches: seq<Branch>, buckets: CostBuckets, id: Id)
    requires var all := buckets.complimentary + buckets.damage + buckets.imprest + buckets.materialDamage + buckets.indirectMaterial;
             forall r :: r in all ==> r.branch_id != id
    ensures Expected(branches, [], buckets, id) == BranchMetric(NameOf(branches, id), 0.0, 0.0, 0.0, 0.0)
  {
    NoRowsOfBranch(buckets.complimentary, id);
    NoRowsOfBranch(buckets.damage, id);
    NoRowsOfBranch(buckets.imprest, id);
    NoRowsOfBranch(buckets.materialDamage, id);
    NoRowsOfBranch(buckets.indirectMaterial, id);
  }

  lemma {:induction false} NoRowsOfBranch(rows: seq<CostRow>, id: Id)
    requires forall r :: r in rows ==> r.branch_id != id
    ensures BranchBucketCost(rows, id) == 0.0
  {
    if |rows| > 0 {
      var init := rows[..|rows| - 1];
      assert forall r :: r in init ==> r in rows;
      NoRowsOfBranch(init, id);
      KeyTotalStep(rows, RowBranch, RowCost, |rows| - 1, id);
      assert rows[..|rows| - 1 + 1] == rows;
    }
  }

  // ------------------------------------------------------------------
  // The diverging bars.
  // ------------------------------------------------------------------

  function Abs(x: real): real { if x < 0.0 then -x else x }

  /** Up by |profit| at a ratio of 75 or less, down by |profit| above it. */
  function BarValue(b: BranchMetric): real
  {
    if b.costToRevenueRatio <= 75.0 then Abs(b.profit) else -Abs(b.profit)
  }

  datatype Colour = Green | Red

  function BarColour(b: BranchMetric): Colour
  {
    if b.costToRevenueRatio <= 75.0 then Green else Red
  }

  /**
   * The bar's length is the size of the profit; it points down and is red
   * exactly when the ratio is above 75, which for a branch with revenue is
   * when its cost exceeds three quarters of its revenue.
   */
  lemma BarRule(branches: seq<Branch>, sales: seq<Sale>, buckets: CostBuckets, id: Id)
    ensures var e := Expected(branches, sales, buckets, id);
            Abs(BarValue(e)) == Abs(e.profit)
            && (BarColour(e) == Red <==> BarValue(e) < 0.0 || (e.profit == 0.0 && e.costToRevenueRatio > 75.0))
            && (e.revenue > 0.0 ==> (BarColour(e) == Green <==> e.cost * 100.0 <= 75.0 * e.revenue))
            && (e.revenue <= 0.0 ==> BarColour(e) == Green)
  {
    var e := Expected(branches, sales, buckets, id);
    RatioMeaning(e.cost, e.revenue, 75.0);
  }
}
