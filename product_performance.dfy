/**
 * The product sales-volume chart: the quantity sold of each product over
 * all sales' items, largest first.
 */
module ProductPerformance {
  import opened Common
  import opened Sorting

  /** A sale item with its joined product (`item.product?.id`, `item.product?.name`). */
  datatype Item = Item(product_id: Id, product_name: string, quantity: Option<real>)

  /** A sale's item list (`sale.items || []`). */
  type Sale = seq<Item>

  datatype ProductEntry = ProductEntry(name: string, quantity: real)

  predicate HasProduct(item: Item) { Truthy(item.product_id) }
  function ProductKey(item: Item): Id { item.product_id }
  function ItemQuantity(item: Item): real { OrZero(item.quantity) }
  function EntryQuantity(e: ProductEntry): real { e.quantity }

  /** Every item of every sale, in order. */
  function AllItems(sales: seq<Sale>): seq<Item>
  {
    if |sales| == 0 then [] else AllItems(sales[..|sales| - 1]) + sales[|sales| - 1]
  }

  function Counted(): Item -> bool { (item: Item) => HasProduct(item) }

  /** The items that carry a product id; the others are skipped. */
  function CountedItems(sales: seq<Sale>): (r: seq<Item>)
    ensures forall x :: x in r <==> x in AllItems(sales) && HasProduct(x)
  {
    Filter(AllItems(sales), Counted())
  }

  /** The name the entry is created with: that of the first item of the product, or "Unknown". */
  function FirstName(items: seq<Item>, id: Id): string
  {
    if |items| == 0 then "Unknown"
    else if items[0].product_id == id then TextOr(items[0].product_name, "Unknown")
    else FirstName(items[1..], id)
  }

  function Entries(items: seq<Item>, ids: seq<Id>, totals: map<Id, real>): (es: seq<ProductEntry>)
    ensures |es| == |ids|
    ensures forall j :: 0 <= j < |ids| ==> es[j] == ProductEntry(FirstName(items, ids[j]), ValueOf(totals)(ids[j]))
  {
    if |ids| == 0 then []
    else Entries(items, ids[..|ids| - 1], totals) + [ProductEntry(FirstName(items, ids[|ids| - 1]), ValueOf(totals)(ids[|ids| - 1]))]
  }

  lemma {:induction false} EntriesSum(items: seq<Item>, ids: seq<Id>, totals: map<Id, real>)
    ensures Sum(Entries(items, ids, totals), EntryQuantity) == Sum(ids, ValueOf(totals))
  {
    if |ids| > 0 {
      EntriesSum(items, ids[..|ids| - 1], totals);
      var es := Entries(items, ids, totals);
      assert es[..|es| - 1] == Entries(items, ids[..|ids| - 1], totals);
    }
  }

  /** Each product's entry: its first counted item's name and the total quantity of its counted items. */
  function ExpectedEntries(sales: seq<Sale>): seq<ProductEntry>
  {
    var kept := CountedItems(sales);
    var ids := FirstKeys(kept, ProductKey);
    seq(|ids|, j requires 0 <= j < |ids| => ProductEntry(FirstName(kept, ids[j]), KeyTotal(kept, ProductKey, ItemQuantity, ids[j])))
  }

  /** The nested `forEach` over sales and their items, keeping the items with a product id. */
  method CollectItems(sales: seq<Sale>) returns (kept: seq<Item>)
    ensures kept == CountedItems(sales)
  {
    kept := [];
    var i := 0;
    while i < |sales|
      invariant 0 <= i <= |sales|
      invariant kept == Filter(AllItems(sales[..i]), Counted())
    {
      CollectStep(sales, i);
      var items := sales[i];
      var kept0 := kept;
      var j := 0;
      while j < |items|
        invariant 0 <= j <= |items|
        invariant kept == kept0 + Filter(items[..j], Counted())
      {
        PushStep(kept0, items, j);
        if Truthy(items[j].product_id) {
          kept := kept + [items[j]];
        }
        j := j + 1;
      }
      assert items[..j] == items;
      i := i + 1;
    }
    assert sales[..i] == sales;
  }

  /** Pushing the next counted item extends the kept list by exactly that item. */
  lemma PushStep(kept0: seq<Item>, items: seq<Item>, j: nat)
    requires j < |items|
    ensures kept0 + Filter(items[..j + 1], Counted())
         == (kept0 + Filter(items[..j], Counted())) + (if HasProduct(items[j]) then [items[j]] else [])
  {
    FilterStep(items, j, Counted());
  }

  /** The counted items of one more sale are those so far followed by that sale's. */
  lemma CollectStep(sales: seq<Sale>, i: nat)
    requires i < |sales|
    ensures Filter(AllItems(sales[..i + 1]), Counted()) == Filter(AllItems(sales[..i]), Counted()) + Filter(sales[i], Counted())
  {
    assert sales[..i + 1][..i] == sales[..i];
    FilterAppend(AllItems(sales[..i]), sales[i], Counted());
  }

  /**
   * productSales: one entry per product id in order of first appearance,
   * with the first item's name and the sum of its items' quantities; the
   * result is those entries sorted by quantity, largest first, and the
   * quantities still add up to that of all counted items.
   */
  method ProductSales(sales: seq<Sale>) returns (r: seq<ProductEntry>)
    ensures multiset(r) == multiset(ExpectedEntries(sales))
    ensures NonIncreasing(r, EntryQuantity)
    ensures Sum(r, EntryQuantity) == Sum(CountedItems(sales), ItemQuantity)
  {
    var kept := CollectItems(sales);
    var ids, totals := GroupSum(kept, ProductKey, ItemQuantity);
    var unsorted := Entries(kept, ids, totals);
    EntriesSum(kept, ids, totals);
    assert unsorted == ExpectedEntries(sales);
    r := SortedDescending(unsorted, EntryQuantity);
    SumPermutation(r, unsorted, EntryQuantity);
  }

  /** The entries' names: each product's first counted item, or "Unknown" when that item has no name. */
  lemma FirstNameMeaning(items: seq<Item>, id: Id, i: nat)
    requires i < |items| && items[i].product_id == id
    requires forall j :: 0 <= j < i ==> items[j].product_id != id
    ensures FirstName(items, id) == (if items[i].product_name == "" then "Unknown" else items[i].product_name)
  {
    if i > 0 {
      FirstNameMeaning(items[1..], id, i - 1);
    }
  }

  /** The products that have an entry are exactly those of the counted items, each once. */
  lemma EntryIds(sales: seq<Sale>)
    ensures var ids := FirstKeys(CountedItems(sales), ProductKey);
            Distinct(ids)
            && (forall x :: x in CountedItems(sales) ==> x.product_id in ids)
            && (forall k :: k in ids ==> Truthy(k))
  {
    var kept := CountedItems(sales);
    var ids := FirstKeys(kept, ProductKey);
    FirstKeysFacts(kept, ProductKey);
    FirstKeysFrom(kept, ProductKey);
    forall j | 0 <= j < |ids| ensures Truthy(ids[j]) {
      var i :| 0 <= i < |kept| && kept[i].product_id == ids[j];
      assert kept[i] in kept;
    }
  }
}
