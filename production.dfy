/**
 * The production screen: the stock of every material and product, the
 * check that a recipe's ingredients are in stock before it is produced,
 * and rescaling a recipe to a different yield.
 */
module Production {
  import opened Common
  import opened Ledger

  // ------------------------------------------------------------------
  // Sufficiency.
  // ------------------------------------------------------------------

  /**
   * One ingredient of a recipe: a material or an intermediate product,
   * with the joined row's name when the join found one.
   */
  datatype Ingredient = Ingredient(
    material_id: Id, material: Option<string>,
    product_id: Id, product: Option<string>,
    quantity: real)

  datatype Kind = MaterialKind | ProductKind

  datatype Shortage = Shortage(kind: Kind, name: string, needed: real, available: real)

  predicate IsMaterialLine(item: Ingredient) { Truthy(item.material_id) && item.material.Some? }
  predicate IsProductLine(item: Ingredient) { !IsMaterialLine(item) && Truthy(item.product_id) && item.product.Some? }

  /** The stock an ingredient is checked against; a missing map entry counts as 0. */
  function Available(item: Ingredient, materialQty: map<Id, real>, productQty: map<Id, real>): real
  {
    if IsMaterialLine(item) then QtyOf(materialQty, item.material_id)
    else if IsProductLine(item) then QtyOf(productQty, item.product_id)
    else 0.0
  }

  predicate Checked(item: Ingredient) { IsMaterialLine(item) || IsProductLine(item) }

  /** An ingredient that is checked and needs more than is in stock. */
  predicate Short(item: Ingredient, materialQty: map<Id, real>, productQty: map<Id, real>)
  {
    Checked(item) && item.quantity > Available(item, materialQty, productQty)
  }

  function ShortageOf(item: Ingredient, materialQty: map<Id, real>, productQty: map<Id, real>): Shortage
  {
    if IsMaterialLine(item) then Shortage(MaterialKind, item.material.value, item.quantity, Available(item, materialQty, productQty))
    else Shortage(ProductKind, if item.product.Some? then item.product.value else "", item.quantity, Available(item, materialQty, productQty))
  }

  /** The shortages of a recipe's ingredients, in ingredient order. */
  function Shortages(items: seq<Ingredient>, materialQty: map<Id, real>, productQty: map<Id, real>): (r: seq<Shortage>)
    ensures |r| <= |items|
  {
    if |items| == 0 then []
    else
      var init, last := items[..|items| - 1], items[|items| - 1];
      Shortages(init, materialQty, productQty)
        + (if Short(last, materialQty, productQty) then [ShortageOf(last, materialQty, productQty)] else [])
  }

  /** checkSufficiency: the loop that pushes one shortage per ingredient that is short. */
  method CheckSufficiency(items: seq<Ingredient>, materialQty: map<Id, real>, productQty: map<Id, real>)
    returns (insufficient: seq<Shortage>)
    ensures insufficient == Shortages(items, materialQty, productQty)
  {
    insufficient := [];
    var i := 0;
    while i < |items|
      invariant 0 <= i <= |items|
      invariant insufficient == Shortages(items[..i], materialQty, productQty)
    {
      assert items[..i + 1][..i] == items[..i];
      var item := items[i];
      if Truthy(item.material_id) && item.material.Some? {
        var available := QtyOf(materialQty, item.material_id);
        if item.quantity > available {
          insufficient := insufficient + [Shortage(MaterialKind, item.material.value, item.quantity, available)];
        }
      } else if Truthy(item.product_id) && item.product.Some? {
        var available := QtyOf(productQty, item.product_id);
        if item.quantity > available {
          insufficient := insufficient + [Shortage(ProductKind, item.product.value, item.quantity, available)];
        }
      }
      i := i + 1;
    }
    assert items[..|items|] == items;
  }

  /**
   * The report is empty exactly when every checked ingredient is covered by
   * its stock; each reported shortage comes from an ingredient that is
   * short, with what it needs and what is available.
   */
  lemma {:induction false} ShortagesMeaning(items: seq<Ingredient>, materialQty: map<Id, real>, productQty: map<Id, real>)
    ensures |Shortages(items, materialQty, productQty)| == 0
        <==> forall i :: 0 <= i < |items| ==> !Short(items[i], materialQty, productQty)
    ensures forall s :: s in Shortages(items, materialQty, productQty) ==>
      exists i :: 0 <= i < |items| && Short(items[i], materialQty, productQty)
                  && s == ShortageOf(items[i], materialQty, productQty)
                  && s.needed == items[i].quantity && s.available == Available(items[i], materialQty, productQty)
  {
    if |items| > 0 {
      var init := items[..|items| - 1];
      ShortagesMeaning(init, materialQty, productQty);
      assert forall i :: 0 <= i < |init| ==> init[i] == items[i];
    }
  }

  datatype ProduceOutcome = StillLoading | Insufficient(items: seq<Shortage>) | Produce

  /** handleProduce: nothing happens while quantities load; the recipe is produced only with no shortage. */
  method HandleProduce(loading: bool, items: seq<Ingredient>, materialQty: map<Id, real>, productQty: map<Id, real>)
    returns (o: ProduceOutcome)
    ensures loading ==> o == StillLoading
    ensures !loading ==> (o == Produce <==> forall i :: 0 <= i < |items| ==> !Short(items[i], materialQty, productQty))
    ensures o.Insufficient? ==> o.items == Shortages(items, materialQty, productQty) && |o.items| > 0
  {
    if loading {
      return StillLoading;
    }
    var insufficient := CheckSufficiency(items, materialQty, productQty);
    ShortagesMeaning(items, materialQty, productQty);
    if |insufficient| > 0 {
      return Insufficient(insufficient);
    }
    return Produce;
  }

  // ------------------------------------------------------------------
  // Yield.
  // ------------------------------------------------------------------

  /** A recipe; `yieldQuantity` is the column `yield`. */
  datatype Recipe = Recipe(id: Id, yieldQuantity: real, items: seq<Ingredient>)

  /** A fetched recipe's yield: `recipe.yield || 1`, never 0. */
  function FetchedYield(stored: Option<real>): (y: real)
    ensures y != 0.0
    ensures stored.Some? && stored.value != 0.0 ==> y == stored.value
  {
    OrIfFalsy(stored, 1.0)
  }

  /** Every recipe on screen has a non-zero yield (the fetch and the rescaling keep it). */
  predicate YieldsSet(recipes: seq<Recipe>)
  {
    forall i :: 0 <= i < |recipes| ==> recipes[i].yieldQuantity != 0.0
  }

  function ScaleIngredient(item: Ingredient, ratio: real): Ingredient
  {
    item.(quantity := item.quantity * ratio)
  }

  function ScaleItems(items: seq<Ingredient>, ratio: real): (r: seq<Ingredient>)
    ensures |r| == |items|
    ensures forall j :: 0 <= j < |items| ==> r[j] == ScaleIngredient(items[j], ratio)
  {
    if |items| == 0 then [] else ScaleItems(items[..|items| - 1], ratio) + [ScaleIngredient(items[|items| - 1], ratio)]
  }

  /** One recipe at a new yield, each ingredient scaled by new over old yield. */
  function Rescale(recipe: Recipe, newYield: real): Recipe
    requires recipe.yieldQuantity != 0.0
  {
    recipe.(yieldQuantity := newYield, items := ScaleItems(recipe.items, newYield / recipe.yieldQuantity))
  }

  function RescaleAll(recipes: seq<Recipe>, recipeId: Id, newYield: real): (r: seq<Recipe>)
    requires YieldsSet(recipes)
    ensures |r| == |recipes|
  {
    if |recipes| == 0 then []
    else
      var init, last := recipes[..|recipes| - 1], recipes[|recipes| - 1];
      RescaleAll(init, recipeId, newYield) + [if last.id == recipeId then Rescale(last, newYield) else last]
  }

  /** handleYieldChange: a yield below 1 is ignored; otherwise only the recipes with the id change. */
  function YieldChange(recipes: seq<Recipe>, recipeId: Id, newYield: real): (r: seq<Recipe>)
    requires YieldsSet(recipes)
  {
    if newYield < 1.0 then recipes else RescaleAll(recipes, recipeId, newYield)
  }

  lemma {:induction false} RescaleAllEffect(recipes: seq<Recipe>, recipeId: Id, newYield: real)
    requires YieldsSet(recipes)
    ensures forall i :: 0 <= i < |recipes| && recipes[i].id != recipeId ==> RescaleAll(recipes, recipeId, newYield)[i] == recipes[i]
    ensures forall i :: 0 <= i < |recipes| && recipes[i].id == recipeId ==> RescaleAll(recipes, recipeId, newYield)[i] == Rescale(recipes[i], newYield)
  {
    if |recipes| > 0 {
      var init := recipes[..|recipes| - 1];
      assert YieldsSet(init) by {
        forall i | 0 <= i < |init| ensures init[i].yieldQuantity != 0.0 { assert init[i] == recipes[i]; }
      }
      RescaleAllEffect(init, recipeId, newYield);
      assert forall i :: 0 <= i < |init| ==> init[i] == recipes[i];
    }
  }

  /**
   * After a change to a yield of at least 1 the targeted recipes have that
   * yield, each ingredient keeps its quantity per unit of yield, all other
   * recipes are unchanged, and yields stay non-zero.
   */
  lemma YieldChangeEffect(recipes: seq<Recipe>, recipeId: Id, newYield: real)
    requires YieldsSet(recipes)
    ensures newYield < 1.0 ==> YieldChange(recipes, recipeId, newYield) == recipes
    ensures var r := YieldChange(recipes, recipeId, newYield);
            |r| == |recipes| && YieldsSet(r)
            && (forall i :: 0 <= i < |recipes| && recipes[i].id != recipeId ==> r[i] == recipes[i])
            && (newYield >= 1.0 ==> forall i :: 0 <= i < |recipes| && recipes[i].id == recipeId ==>
                  r[i].id == recipeId && r[i].yieldQuantity == newYield && |r[i].items| == |recipes[i].items|
                  && forall j :: 0 <= j < |r[i].items| ==>
                       r[i].items[j].quantity / r[i].yieldQuantity == recipes[i].items[j].quantity / recipes[i].yieldQuantity)
  {
    if newYield >= 1.0 {
      RescaleAllEffect(recipes, recipeId, newYield);
      var r := YieldChange(recipes, recipeId, newYield);
      forall i, j | 0 <= i < |recipes| && recipes[i].id == recipeId && 0 <= j < |recipes[i].items|
        ensures r[i].items[j].quantity / r[i].yieldQuantity == recipes[i].items[j].quantity / recipes[i].yieldQuantity
      {
        PerUnitKept(recipes[i].items[j].quantity, recipes[i].yieldQuantity, newYield);
      }
    }
  }

  lemma PerUnitKept(q: real, oldYield: real, newYield: real)
    requires oldYield != 0.0 && newYield != 0.0
    ensures q * (newYield / oldYield) / newYield == q / oldYield
  {
    var ratio := newYield / oldYield;
    assert ratio * oldYield == newYield;
    assert (q * ratio / newYield) * oldYield == q * ratio * oldYield / newYield;
  }

  /** Changing a recipe's yield and then back restores its ingredient quantities. */
  lemma RescaleRoundTrip(recipe: Recipe, newYield: real)
    requires recipe.yieldQuantity != 0.0 && newYield != 0.0
    ensures Rescale(Rescale(recipe, newYield), recipe.yieldQuantity) == recipe
  {
    var back := Rescale(Rescale(recipe, newYield), recipe.yieldQuantity);
    forall j | 0 <= j < |recipe.items| ensures back.items[j] == recipe.items[j] {
      var q := recipe.items[j].quantity;
      var up := newYield / recipe.yieldQuantity;
      var down := recipe.yieldQuantity / newYield;
      assert up * down == 1.0;
      assert q * up * down == q;
    }
    assert back.items == recipe.items;
  }
}
