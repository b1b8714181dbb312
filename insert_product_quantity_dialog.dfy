/**
 * The product stock-insert dialog: like the material one, except that a
 * quantity of 0 is accepted and picking a product does not pre-fill its
 * quantity.
 */
module InsertProductQuantityDialog {
  import opened Common
  import opened StockStore
  import UpdateQuantityDialog

  /** handleFieldChange on the product select: only that field's product changes. */
  function SelectProduct(fs: seq<Field>, index: nat, product: Id): (r: seq<Field>)
    requires index < |fs|
    ensures |r| == |fs| && r[index] == Field(product, fs[index].quantity)
    ensures forall i :: 0 <= i < |fs| && i != index ==> r[i] == fs[i]
  {
    fs[index := fs[index].(item := product)]
  }

  /** A field is rejected when it has no product, an empty quantity, or `Number(quantity) < 0`. */
  predicate FieldValid(f: Field)
  {
    Truthy(f.item) && !f.quantity.Empty? && NumberOf(f.quantity) >= 0.0
  }

  predicate AllValid(fs: seq<Field>)
  {
    forall i :: 0 <= i < |fs| ==> FieldValid(fs[i])
  }

  function SubmitOutcome(branch: Id, fs: seq<Field>, failAt: Option<nat>): Outcome
  {
    if !Truthy(branch) then NoBranch
    else if !AllValid(fs) then InvalidFields
    else LoopOutcome(fs, failAt)
  }

  /** The product_inventory table after handleSubmit. */
  function Submitted(rows: map<Key, real>, branch: Id, today: int, fs: seq<Field>, failAt: Option<nat>): map<Key, real>
  {
    if !Truthy(branch) || !AllValid(fs) then rows
    else AfterFields(rows, branch, today, Processed(fs, failAt))
  }

  /** handleSubmit: the branch check, the check of every field, then the write loop. */
  method HandleSubmit(store: DayStore, branch: Id, today: int, fs: seq<Field>, failAt: Option<nat>) returns (o: Outcome)
    modifies store
    ensures o == SubmitOutcome(branch, fs, failAt)
    ensures store.rows == Submitted(old(store.rows), branch, today, fs, failAt)
  {
    if branch == "" {
      return NoBranch;
    }
    var i := 0;
    while i < |fs|
      invariant 0 <= i <= |fs|
      invariant forall j :: 0 <= j < i ==> FieldValid(fs[j])
    {
      if fs[i].item == "" || fs[i].quantity.Empty? || NumberOf(fs[i].quantity) < 0.0 {
        return InvalidFields;
      }
      i := i + 1;
    }
    o := store.WriteFields(branch, today, fs, failAt);
  }

  /** No branch, or any bad field, and nothing is written; a quantity of 0 is a valid field. */
  lemma RejectedWritesNothing(rows: map<Key, real>, branch: Id, today: int, fs: seq<Field>, failAt: Option<nat>)
    ensures !Truthy(branch) ==> SubmitOutcome(branch, fs, failAt) == NoBranch
    ensures Truthy(branch) && (exists i :: 0 <= i < |fs| && !FieldValid(fs[i])) ==>
              SubmitOutcome(branch, fs, failAt) == InvalidFields
    ensures (!Truthy(branch) || !AllValid(fs)) ==> Submitted(rows, branch, today, fs, failAt) == rows
    ensures forall p: Id :: Truthy(p) ==> FieldValid(Field(p, Entered(0.0)))
  {
  }

  /** An accepted submit adds each product's entered quantities before the first failure to today's row; other rows are untouched. */
  lemma AcceptedSubmit(rows: map<Key, real>, branch: Id, today: int, fs: seq<Field>, failAt: Option<nat>)
    requires Truthy(branch) && AllValid(fs)
    ensures var after := Submitted(rows, branch, today, fs, failAt);
            forall k ::
              ValueOf(after)(k)
              == ValueOf(rows)(k)
                 + (if k.branch == branch && k.day == today then KeyTotal(Processed(fs, failAt), FieldItem, Amount, k.item) else 0.0)
    ensures SubmitOutcome(branch, fs, failAt).Failed? <==> failAt.Some? && failAt.value < |fs|
  {
    AfterFieldsMeaning(rows, branch, today, Processed(fs, failAt));
  }

  /** Every field the material dialog accepts, this one accepts too; they differ exactly on a quantity of 0. */
  lemma AcceptsMoreThanMaterialDialog(f: Field)
    ensures UpdateQuantityDialog.FieldValid(f) ==> FieldValid(f)
    ensures FieldValid(f) && !UpdateQuantityDialog.FieldValid(f) <==> Truthy(f.item) && !f.quantity.Empty? && NumberOf(f.quantity) == 0.0
  {
  }
}
