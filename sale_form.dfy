/**
 * The sale entry form: its list of line items, the choice of a product
 * for a line, the form's validation schema and the stock check made before
 * a sale is submitted.
 */
module SaleForm {
  import opened Common
  import opened Ledger

  datatype FormItem = FormItem(product_id: Id, quantity: real, unit_price: real, unit_cost: real)

  datatype Product = Product(id: Id, name: string, price: real)

  datatype ProductRecipe = ProductRecipe(product_id: Id, unit_cost: Option<real>)

  /** The line `addItem` appends. */
  const NewItem: FormItem := FormItem("", 1.0, 0.0, 0.0)

  // ------------------------------------------------------------------
  // Validation schema.
  // ------------------------------------------------------------------

  /** An item needs a product, a quantity of at least 1 and non-negative prices. */
  predicate ValidItem(item: FormItem)
  {
    |item.product_id| >= 1 && item.quantity >= 1.0 && item.unit_price >= 0.0 && item.unit_cost >= 0.0
  }

  /** A sale needs at least one item, each valid. */
  predicate ValidItems(items: seq<FormItem>)
  {
    |items| >= 1 && forall i :: 0 <= i < |items| ==> ValidItem(items[i])
  }

  // ------------------------------------------------------------------
  // List edits.
  // ------------------------------------------------------------------

  /** `items.filter((_, i) => i !== index)`. */
  function RemoveAt(items: seq<FormItem>, index: int): (r: seq<FormItem>)
    ensures 0 <= index < |items| ==> |r| == |items| - 1
    ensures !(0 <= index < |items|) ==> r == items
    ensures forall j :: 0 <= j < |r| ==> r[j] == (if 0 <= index <= j then items[j + 1] else items[j])
  {
    if 0 <= index < |items| then items[..index] + items[index + 1..] else items
  }

  /** The test of `products.find(...)`: the product has the id. */
  function ProductWithId(id: Id): Product -> bool { (p: Product) => p.id == id }

  /** The test of `productRecipes?.find(...)`: the recipe is the product's. */
  function RecipeFor(id: Id): ProductRecipe -> bool { (r: ProductRecipe) => r.product_id == id }

  /** `recipe?.unit_cost || 0` for the first recipe of the product. */
  function RecipeUnitCost(recipes: seq<ProductRecipe>, id: Id): (c: real)
    ensures (forall j :: 0 <= j < |recipes| ==> recipes[j].product_id != id) ==> c == 0.0
    ensures forall j :: 0 <= j < |recipes| && recipes[j].product_id == id && (forall i :: 0 <= i < j ==> recipes[i].product_id != id)
              ==> c == OrIfFalsy(recipes[j].unit_cost, 0.0)
  {
    var r := Find(recipes, RecipeFor(id));
    if r.Some? then OrIfFalsy(r.value.unit_cost, 0.0) else 0.0
  }

  /**
   * handleProductChange: a known product sets the line's product, its price
   * and the recipe's unit cost (or 0); the quantity is kept; an unknown
   * product changes nothing.
   */
  function ProductChange(items: seq<FormItem>, index: nat, productId: Id,
                         products: seq<Product>, recipes: seq<ProductRecipe>): (r: seq<FormItem>)
    requires index < |items|
    ensures |r| == |items|
    ensures forall j :: 0 <= j < |items| && j != index ==> r[j] == items[j]
    ensures FindFirst(products, ProductWithId(productId)).None? ==> r == items
    ensures FindFirst(products, ProductWithId(productId)).Some? ==>
      r[index] == FormItem(productId, items[index].quantity,
                           products[FindFirst(products, ProductWithId(productId)).value].price,
                           RecipeUnitCost(recipes, productId))
  {
    var k := FindFirst(products, ProductWithId(productId));
    if k.Some? then
      items[index := items[index].(product_id := productId, unit_price := products[k.value].price,
                                   unit_cost := RecipeUnitCost(recipes, productId))]
    else items
  }

  /** Removing the line just added gives back the list before it was added. */
  lemma RemoveUndoesAdd(items: seq<FormItem>)
    ensures RemoveAt(items + [NewItem], |items|) == items
  {
    assert (items + [NewItem])[..|items|] == items;
  }

  /** A fresh line is not yet valid: a product has to be chosen before the schema accepts it. */
  lemma NewItemNeedsProduct(items: seq<FormItem>)
    ensures !ValidItem(NewItem)
    ensures !ValidItems(items + [NewItem])
  {
    assert (items + [NewItem])[|items|] == NewItem;
  }

  /** Choosing a product with a non-empty id and a non-negative price and cost makes a line valid. */
  lemma ProductChangeValidates(items: seq<FormItem>, index: nat, productId: Id,
                               products: seq<Product>, recipes: seq<ProductRecipe>)
    requires index < |items| && items[index].quantity >= 1.0
    requires |productId| >= 1
    requires FindFirst(products, ProductWithId(productId)).Some?
    requires products[FindFirst(products, ProductWithId(productId)).value].price >= 0.0
    requires RecipeUnitCost(recipes, productId) >= 0.0
    ensures ValidItem(ProductChange(items, index, productId, products, recipes)[index])
  {
  }

  /** The form's line list, as the component state holds it. */
  class ItemList {
    var items: seq<FormItem>

    constructor ()
      ensures items == []
    {
      items := [];
    }

    /** addItem: the new line goes at the end. */
    method AddItem()
      modifies this
      ensures items == old(items) + [NewItem]
    {
      items := items + [NewItem];
    }

    /** removeItem: only line `index` goes; the others keep their order. */
    method RemoveItem(index: int)
      modifies this
      ensures items == RemoveAt(old(items), index)
    {
      items := RemoveAt(items, index);
    }

    /** handleProductChange on the state: assigns into a copy of the list. */
    method ChangeProduct(index: nat, productId: Id, products: seq<Product>, recipes: seq<ProductRecipe>)
      requires index < |items|
      modifies this
      ensures items == ProductChange(old(items), index, productId, products, recipes)
    {
      var k := FindFirst(products, ProductWithId(productId));
      if k.Some? {
        var newItems := items;
        newItems := newItems[index := newItems[index].(product_id := productId, unit_price := products[k.value].price,
                                                       unit_cost := RecipeUnitCost(recipes, productId))];
        items := newItems;
      }
    }
  }

  // ------------------------------------------------------------------
  // The stock check on submit.
  // ------------------------------------------------------------------

  datatype Shortage = Shortage(name: string, needed: real, available: real)

  function ProductNameOr(products: seq<Product>, id: Id): string
  {
    var k := FindFirst(products, ProductWithId(id));
    if k.Some? && products[k.value].name != "" then products[k.value].name else "Unknown Product"
  }

  predicate Exceeds(item: FormItem, qty: map<Id, real>) { item.quantity > QtyOf(qty, item.product_id) }

  function Shortages(items: seq<FormItem>, qty: map<Id, real>, products: seq<Product>): seq<Shortage>
  {
    if |items| == 0 then []
    else
      var init, last := items[..|items| - 1], items[|items| - 1];
      Shortages(init, qty, products)
        + (if Exceeds(last, qty) then [Shortage(ProductNameOr(products, last.product_id), last.quantity, QtyOf(qty, last.product_id))] else [])
  }

  /** The list is empty exactly when no item asks for more than is in stock (a missing product counts 0). */
  lemma {:induction false} ShortagesEmpty(items: seq<FormItem>, qty: map<Id, real>, products: seq<Product>)
    ensures |Shortages(items, qty, products)| == 0 <==> forall i :: 0 <= i < |items| ==> !Exceeds(items[i], qty)
    ensures |Shortages(items, qty, products)| <= |items|
  {
    if |items| > 0 {
      var init := items[..|items| - 1];
      ShortagesEmpty(init, qty, products);
      assert forall i :: 0 <= i < |init| ==> init[i] == items[i];
    }
  }

  datatype SubmitOutcome = RootError | Insufficient(items: seq<Shortage>) | Submitted

  /** handleSubmit: wait while quantities load, report shortages, or hand the values on. */
  method HandleSubmit(loading: bool, items: seq<FormItem>, qty: map<Id, real>, products: seq<Product>)
    returns (o: SubmitOutcome)
    ensures loading ==> o == RootError
    ensures !loading ==> (o == Submitted <==> forall i :: 0 <= i < |items| ==> !Exceeds(items[i], qty))
    ensures o.Insufficient? ==> o.items == Shortages(items, qty, products) && |o.items| > 0
  {
    if loading {
      return RootError;
    }
    var insufficient: seq<Shortage> := [];
    var i := 0;
    while i < |items|
      invariant 0 <= i <= |items|
      invariant insufficient == Shortages(items[..i], qty, products)
    {
      assert items[..i + 1][..i] == items[..i];
      var item := items[i];
      var available := QtyOf(qty, item.product_id);
      if item.quantity > available {
        insufficient := insufficient + [Shortage(ProductNameOr(products, item.product_id), item.quantity, available)];
      }
      i := i + 1;
    }
    assert items[..|items|] == items;
    ShortagesEmpty(items, qty, products);
    if |insufficient| > 0 {
      return Insufficient(insufficient);
    }
    return Submitted;
  }
}
