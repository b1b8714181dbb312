/**
 * The products screen.  Its rows come from a product summary view whose
 * shape is not fixed, so a row is modelled as a JavaScript object: a map
 * from property names to values, where a property may be absent or hold a
 * non-number.
 */
module Products {
  import opened Common
  import opened Ledger
  import Views
  import Accounts

  datatype Value = Null | Num(n: real) | Str(s: string)

  type Row = map<string, Value>

  /** `obj[key]`, with an absent property read as undefined (None). */
  function Get(obj: Row, key: string): Option<Value>
  {
    if key in obj then Some(obj[key]) else None
  }

  predicate JsTruthy(v: Option<Value>)
  {
    v.Some? && match v.value
      case Null => false
      case Num(n) => n != 0.0
      case Str(s) => s != ""
  }

  /** `a || b` on property values. */
  function JsOr(a: Option<Value>, b: Option<Value>): Option<Value>
  {
    if JsTruthy(a) then a else b
  }

  /** getNumber: the property when it holds a number, else 0. */
  function GetNumber(obj: Row, key: string): (r: real)
    ensures key in obj && obj[key].Num? ==> r == obj[key].n
    ensures !(key in obj && obj[key].Num?) ==> r == 0.0
  {
    if key in obj && obj[key].Num? then obj[key].n else 0.0
  }

  /** `key in obj ? getNumber(obj, key) : 0`. */
  function Field(obj: Row, key: string): real
  {
    if key in obj then GetNumber(obj, key) else 0.0
  }

  /**
   * calculateCurrentQuantity, in the screen's own order: production,
   * received, opening, transfers in; less usage, transfers out,
   * complimentary, damage and sales.
   */
  function CurrentQuantity(obj: Row): real
  {
    Field(obj, "total_production_quantity")
      + Field(obj, "total_quantity")
      + Field(obj, "opening_stock")
      + Field(obj, "total_transfer_in_quantity")
      - Field(obj, "total_usage_quantity")
      - Field(obj, "total_transfer_out_quantity")
      - Field(obj, "total_complimentary_quantity")
      - Field(obj, "total_damage_quantity")
      - Field(obj, "total_sales_quantity")
  }

  /** A numeric column of the row; a missing or non-numeric one is null. */
  function Column(obj: Row, key: string): (c: Option<real>)
    ensures OrZero(c) == GetNumber(obj, key)
  {
    if key in obj && obj[key].Num? then Some(obj[key].n) else None
  }

  /** The row read as a product summary row. */
  function AsSummary(obj: Row): ProductSummary
  {
    ProductSummary("", "",
      Column(obj, "total_quantity"),
      Column(obj, "opening_stock"),
      Column(obj, "total_production_quantity"),
      Column(obj, "total_transfer_in_quantity"),
      Column(obj, "total_transfer_out_quantity"),
      Column(obj, "total_usage_quantity"),
      Column(obj, "total_damage_quantity"),
      Column(obj, "total_sales_quantity"),
      Column(obj, "total_complimentary_quantity"))
  }

  /** This screen's formula is the shared nine-column product balance. */
  lemma CurrentQuantityIsBalance(obj: Row)
    ensures CurrentQuantity(obj) == ProductBalance(AsSummary(obj))
  {
    var s := AsSummary(obj);
    assert Field(obj, "total_quantity") == OrZero(s.total_quantity);
    assert Field(obj, "opening_stock") == OrZero(s.opening_stock);
    assert Field(obj, "total_production_quantity") == OrZero(s.total_production_quantity);
    assert Field(obj, "total_transfer_in_quantity") == OrZero(s.total_transfer_in_quantity);
    assert Field(obj, "total_transfer_out_quantity") == OrZero(s.total_transfer_out_quantity);
    assert Field(obj, "total_usage_quantity") == OrZero(s.total_usage_quantity);
    assert Field(obj, "total_damage_quantity") == OrZero(s.total_damage_quantity);
    assert Field(obj, "total_sales_quantity") == OrZero(s.total_sales_quantity);
    assert Field(obj, "total_complimentary_quantity") == OrZero(s.total_complimentary_quantity);
  }

  // ------------------------------------------------------------------
  // Identity of a row.
  // ------------------------------------------------------------------

  /** getProductId: `product_id`, else `id`, else "". */
  function ProductId(obj: Row): (v: Option<Value>)
    ensures JsTruthy(v) || v == Some(Str(""))
    ensures JsTruthy(Get(obj, "product_id")) ==> v == Get(obj, "product_id")
    ensures !JsTruthy(Get(obj, "product_id")) && JsTruthy(Get(obj, "id")) ==> v == Get(obj, "id")
  {
    JsOr(JsOr(Get(obj, "product_id"), Get(obj, "id")), Some(Str("")))
  }

  /** getProductName: `product_name`, else `name`, else "". */
  function ProductName(obj: Row): (v: Option<Value>)
    ensures JsTruthy(v) || v == Some(Str(""))
    ensures JsTruthy(Get(obj, "product_name")) ==> v == Get(obj, "product_name")
    ensures !JsTruthy(Get(obj, "product_name")) && JsTruthy(Get(obj, "name")) ==> v == Get(obj, "name")
  {
    JsOr(JsOr(Get(obj, "product_name"), Get(obj, "name")), Some(Str("")))
  }

  function TextOf(v: Option<Value>): string
  {
    if v.Some? && v.value.Str? then v.value.s else ""
  }

  /** The search: the row's name contains the search term, ignoring case. */
  predicate Matches(obj: Row, searchTerm: string)
  {
    Includes(Lower(TextOf(ProductName(obj))), Lower(searchTerm))
  }

  function MatchesTerm(searchTerm: string): Row -> bool
  {
    (obj: Row) => Matches(obj, searchTerm)
  }

  function FilteredProducts(products: seq<Row>, searchTerm: string): seq<Row>
  {
    Filter(products, MatchesTerm(searchTerm))
  }

  /** getViewName: the admin view only for a head-office user on the "all" scope. */
  function ViewName(userBranchName: string, selectedBranch: string, timePeriod: string): string
  {
    Views.SummaryView("product", userBranchName == Views.HeadOffice && selectedBranch == "all", timePeriod)
  }

  lemma ViewNameChoice(userBranchName: string, selectedBranch: string, timePeriod: string)
    ensures "admin_" <= ViewName(userBranchName, selectedBranch, timePeriod)
        <==> userBranchName == Views.HeadOffice && selectedBranch == "all"
    ensures timePeriod !in Views.Periods
        ==> ViewName(userBranchName, selectedBranch, timePeriod) == ViewName(userBranchName, selectedBranch, "today")
  {
    Views.AdminViewOnlyWhenChosen("product", userBranchName == Views.HeadOffice && selectedBranch == "all", timePeriod);
  }

  // ------------------------------------------------------------------
  // Cost ratios and stock value.
  // ------------------------------------------------------------------

  datatype ProductRecipe = ProductRecipe(product_id: Option<Value>, unit_cost: Option<real>, selling_price: Option<real>)

  /** The test of `productRecipes.find(...)`: the recipe is the row's product's. */
  function RecipeFor(id: Option<Value>): ProductRecipe -> bool { (r: ProductRecipe) => r.product_id == id }

  /** Cost attributed to the row: sales cost plus complimentary and damage cost. */
  function AttributedCost(obj: Row): real
  {
    Field(obj, "total_cost") + Field(obj, "total_complimentary_cost") + Field(obj, "total_damage_cost")
  }

  /** ACRR: attributed cost over sales (a zero sales figure divides by 1), as a percentage. */
  function Acrr(obj: Row): (r: real)
    ensures GetNumber(obj, "total_sale") != 0.0 ==> r == AttributedCost(obj) / GetNumber(obj, "total_sale") * 100.0
    ensures GetNumber(obj, "total_sale") == 0.0 ==> r == AttributedCost(obj) * 100.0
  {
    var sales := Field(obj, "total_sale");
    AttributedCost(obj) / (if sales != 0.0 then sales else 1.0) * 100.0
  }

  /** UCRR: the recipe's unit cost (or 0) over its selling price (1 when absent or 0), as a percentage. */
  function Ucrr(recipe: Option<ProductRecipe>): (r: real)
    ensures recipe.None? ==> r == 0.0
    ensures recipe.Some? && OrIfFalsy(recipe.value.selling_price, 0.0) != 0.0
        ==> r == OrZero(recipe.value.unit_cost) / recipe.value.selling_price.value * 100.0
    ensures recipe.Some? && OrIfFalsy(recipe.value.selling_price, 0.0) == 0.0
        ==> r == OrZero(recipe.value.unit_cost) * 100.0
  {
    var unitCost := if recipe.Some? then OrIfFalsy(recipe.value.unit_cost, 0.0) else 0.0;
    var price := if recipe.Some? then OrIfFalsy(recipe.value.selling_price, 1.0) else 1.0;
    unitCost / price * 100.0
  }

  /** A ratio above 75% is shown red. */
  predicate Red(ratio: real) { ratio > 75.0 }

  /** With positive sales, ACRR is red exactly when attributed cost exceeds 75% of sales. */
  lemma AcrrRed(obj: Row)
    requires GetNumber(obj, "total_sale") > 0.0
    ensures Red(Acrr(obj)) <==> AttributedCost(obj) * 100.0 > 75.0 * GetNumber(obj, "total_sale")
  {
    Accounts.RatioMeaning(AttributedCost(obj), GetNumber(obj, "total_sale"), 75.0);
  }

  /** With a positive selling price, UCRR is red exactly when unit cost exceeds 75% of it. */
  lemma UcrrRed(recipe: ProductRecipe)
    requires recipe.selling_price.Some? && recipe.selling_price.value > 0.0
    ensures Red(Ucrr(Some(recipe))) <==> OrZero(recipe.unit_cost) * 100.0 > 75.0 * recipe.selling_price.value
  {
    Accounts.RatioMeaning(OrZero(recipe.unit_cost), recipe.selling_price.value, 75.0);
  }

  /** Price for the stock value: the recipe's numeric selling price, else the row's, else 0. */
  function StockPrice(recipes: seq<ProductRecipe>, obj: Row): (p: real)
    ensures var r := Find(recipes, RecipeFor(ProductId(obj)));
            r.Some? && r.value.selling_price.Some? ==> p == r.value.selling_price.value
    ensures var r := Find(recipes, RecipeFor(ProductId(obj)));
            !(r.Some? && r.value.selling_price.Some?) ==> p == GetNumber(obj, "selling_price")
  {
    var r := Find(recipes, RecipeFor(ProductId(obj)));
    if r.Some? && r.value.selling_price.Some? then r.value.selling_price.value
    else GetNumber(obj, "selling_price")
  }

  function RowValue(recipes: seq<ProductRecipe>): Row -> real
  {
    (obj: Row) => StockPrice(recipes, obj) * CurrentQuantity(obj)
  }

  /** The header's stock value over the rows the search keeps. */
  function StockValue(products: seq<Row>, recipes: seq<ProductRecipe>, searchTerm: string): real
  {
    Sum(FilteredProducts(products, searchTerm), RowValue(recipes))
  }

  function RowValueIfMatches(recipes: seq<ProductRecipe>, searchTerm: string): Row -> real
  {
    (obj: Row) => if Matches(obj, searchTerm) then StockPrice(recipes, obj) * CurrentQuantity(obj) else 0.0
  }

  /**
   * The stock value counts each matching row once and ignores the others;
   * an empty search counts every row.
   */
  lemma StockValueOfSearch(products: seq<Row>, recipes: seq<ProductRecipe>, searchTerm: string)
    ensures StockValue(products, recipes, searchTerm) == Sum(products, RowValueIfMatches(recipes, searchTerm))
    ensures searchTerm == "" ==> StockValue(products, recipes, searchTerm) == Sum(products, RowValue(recipes))
  {
    SumFilterAsGuard(products, MatchesTerm(searchTerm), RowValue(recipes), RowValueIfMatches(recipes, searchTerm));
    if searchTerm == "" {
      forall i | 0 <= i < |products|
        ensures RowValueIfMatches(recipes, searchTerm)(products[i]) == RowValue(recipes)(products[i])
      {
        IncludesEmpty(Lower(TextOf(ProductName(products[i]))));
      }
      SumCongruent(products, RowValueIfMatches(recipes, searchTerm), RowValue(recipes));
    }
  }
}
