/**
 * The recipe editor: costing a recipe when it is saved, the ingredient
 * rows written back, the editor's list edits, the add-ingredient form and
 * the ingredient label.
 */
module Recipes {
  import opened Common

  /** The joined material of an ingredient (a product picked in the form carries its price here too). */
  datatype MaterialInfo = MaterialInfo(name: string, unit: string, unit_price: real)

  datatype ProductInfo = ProductInfo(name: string, unit: string)

  /** A `recipe_materials` row; `yieldQuantity` is the column `yield`. */
  datatype Ingredient = Ingredient(
    id: Id, material_id: Id, product_id: Id, quantity: real, yieldQuantity: real,
    material: Option<MaterialInfo>, product: Option<ProductInfo>)

  datatype Recipe = Recipe(
    id: Id, name: string, description: Option<string>, yieldQuantity: real,
    productPrice: real, ingredients: seq<Ingredient>)

  // ------------------------------------------------------------------
  // Costing on save.
  // ------------------------------------------------------------------

  function LineCost(m: Ingredient): real
  {
    if m.material.Some? then m.material.value.unit_price * m.quantity else 0.0
  }

  predicate Priced(m: Ingredient) { m.material.Some? }

  /**
   * The `reduce` over the ingredients: `material.unit_price * quantity`
   * summed; an ingredient without its joined material makes the reduce
   * throw (None), before anything is written.
   */
  function RecipeCost(ms: seq<Ingredient>): (c: Option<real>)
    ensures c.Some? <==> forall i :: 0 <= i < |ms| ==> Priced(ms[i])
    ensures c.Some? ==> c.value == Sum(ms, LineCost)
  {
    if |ms| == 0 then Some(0.0)
    else
      var c0 := RecipeCost(ms[..|ms| - 1]);
      var last := ms[|ms| - 1];
      assert forall i :: 0 <= i < |ms| - 1 ==> ms[..|ms| - 1][i] == ms[i];
      if c0.Some? && last.material.Some? then Some(c0.value + last.material.value.unit_price * last.quantity)
      else None
  }

  /** The `product_recipes` update; `unit_cost` is None when the yield is 0 (JavaScript gives a non-finite number). */
  datatype RecipeUpdate = RecipeUpdate(
    name: string, description: Option<string>, yieldQuantity: real,
    selling_price: real, unit_cost: Option<real>, material_cost: real)

  function UpdateOf(r: Recipe, cost: real): (u: RecipeUpdate)
    ensures u.material_cost == cost && u.selling_price == r.productPrice && u.yieldQuantity == r.yieldQuantity
    ensures r.yieldQuantity != 0.0 ==> u.unit_cost.Some? && u.unit_cost.value * r.yieldQuantity == cost
    ensures r.yieldQuantity == 0.0 ==> u.unit_cost.None?
  {
    RecipeUpdate(r.name, r.description, r.yieldQuantity, r.productPrice,
                 if r.yieldQuantity != 0.0 then Some(cost / r.yieldQuantity) else None, cost)
  }

  /** A row of `materialInserts`; a falsy id is written as null (None). */
  datatype MaterialInsert = MaterialInsert(
    recipe_id: Id, material_id: Option<Id>, product_id: Option<Id>,
    quantity: real, yieldQuantity: real, material_cost: real, name: string)

  function IdOrNull(id: Id): Option<Id> { if Truthy(id) then Some(id) else None }

  function InsertOf(recipeId: Id, m: Ingredient): MaterialInsert
  {
    MaterialInsert(recipeId, IdOrNull(m.material_id), IdOrNull(m.product_id), m.quantity, m.yieldQuantity,
                   if m.material.Some? then m.material.value.unit_price else 0.0,
                   if m.material.Some? then m.material.value.name else "")
  }

  function Inserts(recipeId: Id, ms: seq<Ingredient>): (r: seq<MaterialInsert>)
    ensures |r| == |ms|
    ensures forall i :: 0 <= i < |ms| ==> r[i] == InsertOf(recipeId, ms[i])
  {
    if |ms| == 0 then [] else Inserts(recipeId, ms[..|ms| - 1]) + [InsertOf(recipeId, ms[|ms| - 1])]
  }

  function InsertCost(r: MaterialInsert): real { r.material_cost * r.quantity }

  /** The stored state the save writes: the recipe's row and its `recipe_materials` rows. */
  datatype RecipeDb = RecipeDb(row: RecipeUpdate, materials: seq<MaterialInsert>)

  /** The three writes, in the order the save issues them. */
  datatype Write = UpdateWrite | DeleteWrite | InsertWrite

  datatype SaveOutcome = CostFailed | WriteFailed(at: Write) | Saved

  /**
   * updateRecipeMutation: cost the recipe (throwing before any write when
   * an ingredient lacks its material), then update the recipe's row, delete
   * its ingredient rows and insert one row per ingredient. `fails` names the
   * write that returns an error, if any; the mutation throws there and the
   * later writes are not issued.
   */
  function Save(db: RecipeDb, r: Recipe, fails: Option<Write>): (SaveOutcome, RecipeDb)
  {
    var c := RecipeCost(r.ingredients);
    if c.None? then (CostFailed, db)
    else if fails == Some(UpdateWrite) then (WriteFailed(UpdateWrite), db)
    else
      var updated := db.(row := UpdateOf(r, c.value));
      if fails == Some(DeleteWrite) then (WriteFailed(DeleteWrite), updated)
      else
        var emptied := updated.(materials := []);
        if fails == Some(InsertWrite) then (WriteFailed(InsertWrite), emptied)
        else (Saved, emptied.(materials := Inserts(r.id, r.ingredients)))
  }

  /**
   * A save fails its costing exactly when an ingredient lacks its material;
   * otherwise it fails at the write that errs, or completes. Nothing is
   * written when the costing or the update fails.
   */
  lemma SaveResult(db: RecipeDb, r: Recipe, fails: Option<Write>)
    ensures Save(db, r, fails).0 == CostFailed <==> exists i :: 0 <= i < |r.ingredients| && !Priced(r.ingredients[i])
    ensures Save(db, r, fails).0 != CostFailed ==> Save(db, r, fails).0 == (if fails.Some? then WriteFailed(fails.value) else Saved)
    ensures Save(db, r, fails).0 in {CostFailed, WriteFailed(UpdateWrite)} ==> Save(db, r, fails).1 == db
  {
    if fails.Some? {
      match fails.value
      case UpdateWrite =>
      case DeleteWrite =>
      case InsertWrite =>
    }
  }

  /**
   * The partial saves: a failed delete leaves the recipe's row updated with
   * the new cost over its old ingredient rows; a failed insert leaves it
   * updated with no ingredient rows at all.
   */
  lemma SavePartial(db: RecipeDb, r: Recipe, fails: Option<Write>)
    ensures Save(db, r, fails).0 == WriteFailed(DeleteWrite) ==>
              Save(db, r, fails).1.row.material_cost == Sum(r.ingredients, LineCost)
              && Save(db, r, fails).1.materials == db.materials
    ensures Save(db, r, fails).0 == WriteFailed(InsertWrite) ==>
              Save(db, r, fails).1.row.material_cost == Sum(r.ingredients, LineCost)
              && Save(db, r, fails).1.materials == []
  {
  }

  /**
   * A complete save stores one row per ingredient, each with the
   * ingredient's own quantity and ids (null when falsy), and a material cost
   * that is the sum of those rows' price times quantity.
   */
  lemma SaveMeaning(db: RecipeDb, r: Recipe, fails: Option<Write>)
    ensures Save(db, r, fails).0 == Saved ==>
      var s := Save(db, r, fails).1;
      |s.materials| == |r.ingredients|
      && (forall i :: 0 <= i < |r.ingredients| ==>
            s.materials[i].recipe_id == r.id && s.materials[i].quantity == r.ingredients[i].quantity
            && (s.materials[i].material_id.Some? <==> Truthy(r.ingredients[i].material_id))
            && (s.materials[i].product_id.Some? <==> Truthy(r.ingredients[i].product_id)))
      && s.row.material_cost == Sum(s.materials, InsertCost)
  {
    if Save(db, r, fails).0 == Saved {
      var c := RecipeCost(r.ingredients).value;
      assert Save(db, r, fails).1 == RecipeDb(UpdateOf(r, c), Inserts(r.id, r.ingredients));
      InsertsCost(r.id, r.ingredients);
    }
  }

  lemma {:induction false} InsertsCost(recipeId: Id, ms: seq<Ingredient>)
    requires forall i :: 0 <= i < |ms| ==> Priced(ms[i])
    ensures Sum(Inserts(recipeId, ms), InsertCost) == Sum(ms, LineCost)
  {
    if |ms| > 0 {
      var init := ms[..|ms| - 1];
      var last := ms[|ms| - 1];
      forall i | 0 <= i < |init| ensures Priced(init[i]) { assert init[i] == ms[i]; }
      InsertsCost(recipeId, init);
      var rs := Inserts(recipeId, ms);
      assert rs[..|rs| - 1] == Inserts(recipeId, init);
      InsertOfCost(recipeId, last);
    }
  }

  /** A priced ingredient's insert costs what the ingredient does. */
  lemma InsertOfCost(recipeId: Id, m: Ingredient)
    requires Priced(m)
    ensures InsertCost(InsertOf(recipeId, m)) == LineCost(m)
  {
  }

  // ------------------------------------------------------------------
  // The editor's list edits.
  // ------------------------------------------------------------------

  /** The quantity input of row `idx`: `map((m, i) => i === idx ? { ...m, quantity } : m)`. */
  function SetQuantity(ms: seq<Ingredient>, idx: int, q: real): (r: seq<Ingredient>)
    ensures |r| == |ms|
    ensures forall i :: 0 <= i < |ms| && i != idx ==> r[i] == ms[i]
    ensures 0 <= idx < |ms| ==> r[idx] == ms[idx].(quantity := q)
  {
    if 0 <= idx < |ms| then ms[idx := ms[idx].(quantity := q)] else ms
  }

  /** The delete button of row `idx`: `filter((_, i) => i !== idx)`. */
  function DeleteAt(ms: seq<Ingredient>, idx: int): (r: seq<Ingredient>)
    ensures !(0 <= idx < |ms|) ==> r == ms
    ensures 0 <= idx < |ms| ==> |r| == |ms| - 1
    ensures forall i :: 0 <= i < |r| ==> r[i] == (if 0 <= idx <= i then ms[i + 1] else ms[i])
  {
    if 0 <= idx < |ms| then ms[..idx] + ms[idx + 1..] else ms
  }

  /** The add form's `onAdd`: the new ingredient goes last. */
  function Append(ms: seq<Ingredient>, m: Ingredient): (r: seq<Ingredient>)
    ensures |r| == |ms| + 1 && r[|ms|] == m
    ensures forall i :: 0 <= i < |ms| ==> r[i] == ms[i]
  {
    ms + [m]
  }

  /** Deleting the row just added restores the list. */
  lemma DeleteUndoesAppend(ms: seq<Ingredient>, m: Ingredient)
    ensures DeleteAt(Append(ms, m), |ms|) == ms
  {
    assert (ms + [m])[..|ms|] == ms;
  }

  /** Adding an ingredient adds its price times quantity to the cost. */
  lemma AppendCost(ms: seq<Ingredient>, m: Ingredient)
    ensures Sum(Append(ms, m), LineCost) == Sum(ms, LineCost) + LineCost(m)
  {
    SumAppend(ms, [m], LineCost);
  }

  /** Editing a quantity changes the cost by the price times the change. */
  lemma {:induction false} SetQuantityCost(ms: seq<Ingredient>, idx: nat, q: real)
    requires idx < |ms| && ms[idx].material.Some?
    ensures Sum(SetQuantity(ms, idx, q), LineCost)
         == Sum(ms, LineCost) + ms[idx].material.value.unit_price * (q - ms[idx].quantity)
  {
    SetQuantityDelta(ms, idx, q);
    PricedShift(ms[idx], q, Sum(ms, LineCost), Sum(SetQuantity(ms, idx, q), LineCost));
  }

  lemma {:induction false} SetQuantityDelta(ms: seq<Ingredient>, idx: nat, q: real)
    requires idx < |ms|
    ensures Sum(SetQuantity(ms, idx, q), LineCost)
         == Sum(ms, LineCost) - LineCost(ms[idx]) + LineCost(ms[idx].(quantity := q))
  {
    assert SetQuantity(ms, idx, q) == ms[idx := ms[idx].(quantity := q)];
    SumUpdate(ms, idx, ms[idx].(quantity := q), LineCost);
  }

  lemma PricedShift(m: Ingredient, q: real, before: real, after: real)
    requires Priced(m)
    requires after == before - LineCost(m) + LineCost(m.(quantity := q))
    ensures after == before + m.material.value.unit_price * (q - m.quantity)
  {
    var p := m.material.value.unit_price;
    assert LineCost(m) == p * m.quantity;
    assert LineCost(m.(quantity := q)) == p * q;
  }

  // ------------------------------------------------------------------
  // The add-ingredient form.
  // ------------------------------------------------------------------

  datatype OptionKind = MaterialOption | ProductOption

  /** An entry of the form's list; a product's `price` is its `unit_price` here. */
  datatype Choice = Choice(id: Id, name: string, unit: string, unit_price: real, kind: OptionKind)

  datatype MaterialRow = MaterialRow(id: Id, name: string, unit: string, unit_price: real)
  datatype ProductRow = ProductRow(id: Id, name: string, unit: string, price: real)

  function MaterialChoices(ms: seq<MaterialRow>): (r: seq<Choice>)
    ensures |r| == |ms|
    ensures forall i :: 0 <= i < |ms| ==> r[i] == Choice(ms[i].id, ms[i].name, ms[i].unit, ms[i].unit_price, MaterialOption)
  {
    if |ms| == 0 then []
    else
      var m := ms[|ms| - 1];
      MaterialChoices(ms[..|ms| - 1]) + [Choice(m.id, m.name, m.unit, m.unit_price, MaterialOption)]
  }

  function ProductChoices(ps: seq<ProductRow>): (r: seq<Choice>)
    ensures |r| == |ps|
    ensures forall i :: 0 <= i < |ps| ==> r[i] == Choice(ps[i].id, ps[i].name, ps[i].unit, ps[i].price, ProductOption)
  {
    if |ps| == 0 then []
    else
      var p := ps[|ps| - 1];
      ProductChoices(ps[..|ps| - 1]) + [Choice(p.id, p.name, p.unit, p.price, ProductOption)]
  }

  /** `allOptions`: the materials, then the products. */
  function AllChoices(ms: seq<MaterialRow>, ps: seq<ProductRow>): seq<Choice>
  {
    MaterialChoices(ms) + ProductChoices(ps)
  }

  /** The test of `allOptions.find(...)`: `o.id === materialId`. */
  function ChoiceWithId(id: Id): Choice -> bool { (o: Choice) => o.id == id }

  /** The `+ Add` click: nothing without a selected option or with quantity 0; otherwise the new ingredient. */
  function AddFromForm(options: seq<Choice>, selectedId: Id, quantity: real): Option<Ingredient>
  {
    var o := Find(options, ChoiceWithId(selectedId));
    if o.None? || quantity == 0.0 then None
    else
      var c := o.value;
      Some(Ingredient("", if c.kind == MaterialOption then c.id else "", if c.kind == ProductOption then c.id else "",
                      quantity, 1.0, Some(MaterialInfo(c.name, c.unit, c.unit_price)), None))
  }

  /**
   * A click adds an ingredient exactly when some option has the selected id
   * and the quantity is not 0; the option's id goes into the material or the
   * product id according to its kind, and the other stays empty.
   */
  lemma AddFromFormMeaning(options: seq<Choice>, selectedId: Id, quantity: real)
    ensures AddFromForm(options, selectedId, quantity).Some?
        <==> (exists i :: 0 <= i < |options| && options[i].id == selectedId) && quantity != 0.0
    ensures var r := AddFromForm(options, selectedId, quantity);
            r.Some? ==>
              var c := Find(options, ChoiceWithId(selectedId)).value;
              r.value.quantity == quantity && r.value.yieldQuantity == 1.0 && Priced(r.value)
              && (c.kind == MaterialOption ==> r.value.material_id == selectedId && r.value.product_id == "")
              && (c.kind == ProductOption ==> r.value.product_id == selectedId && r.value.material_id == "")
  {
    if (exists i :: 0 <= i < |options| && options[i].id == selectedId) {
      var i :| 0 <= i < |options| && options[i].id == selectedId;
      assert Find(options, ChoiceWithId(selectedId)).Some?;
    }
  }

  // ------------------------------------------------------------------
  // The ingredient label.
  // ------------------------------------------------------------------

  datatype Display = Display(name: string, unit: string)

  /** getMaterialDisplay: the material when it has an id and a join, else the product likewise, else "Unknown". */
  function MaterialDisplay(m: Ingredient): (d: Display)
    ensures Truthy(m.material_id) && m.material.Some? ==> d == Display(m.material.value.name, m.material.value.unit)
    ensures !(Truthy(m.material_id) && m.material.Some?) && Truthy(m.product_id) && m.product.Some? ==>
              d == Display(m.product.value.name, m.product.value.unit)
    ensures !(Truthy(m.material_id) && m.material.Some?) && !(Truthy(m.product_id) && m.product.Some?) ==>
              d == Display("Unknown", "")
  {
    if Truthy(m.material_id) && m.material.Some? then Display(m.material.value.name, m.material.value.unit)
    else if Truthy(m.product_id) && m.product.Some? then Display(m.product.value.name, m.product.value.unit)
    else Display("Unknown", "")
  }

  /**
   * The label of a freshly added row: a material shows the option's name
   * and unit; a product has no joined product yet, so it shows "Unknown"
   * until the recipe is reloaded.
   */
  lemma AddedLabel(options: seq<Choice>, selectedId: Id, quantity: real)
    requires Truthy(selectedId)
    requires AddFromForm(options, selectedId, quantity).Some?
    ensures var c := Find(options, ChoiceWithId(selectedId)).value;
            var d := MaterialDisplay(AddFromForm(options, selectedId, quantity).value);
            (c.kind == MaterialOption ==> d == Display(c.name, c.unit))
            && (c.kind == ProductOption ==> d == Display("Unknown", ""))
  {
  }
}
