/**
 * The material stock-insert dialog: the selected branch, the field edits
 * (picking a material pre-fills its stored quantity), and the submit that
 * validates every field before adding each quantity to today's row.
 */
module UpdateQuantityDialog {
  import opened Common
  import opened StockStore

  datatype UserBranch = UserBranch(id: Id, name: string)

  /** The initial `selectedBranch`: none for HEAD OFFICE (it must choose), else the user's own branch. */
  function InitialBranch(user: Option<UserBranch>): (b: Id)
    ensures user.Some? && user.value.name == "HEAD OFFICE" ==> b == ""
    ensures user.Some? && user.value.name != "HEAD OFFICE" ==> b == user.value.id
    ensures user.None? ==> b == ""
  {
    if user.Some? && user.value.name == "HEAD OFFICE" then ""
    else if user.Some? then user.value.id
    else ""
  }

  /**
   * fetchCurrentQuantity's answer: the request failed (`.single()` also
   * fails when the branch has no row for the material), or the one row's
   * quantity, possibly null.
   */
  datatype Fetch = FetchError | Fetched(quantity: Option<real>)

  /**
   * handleFieldChange on the material select: the field takes the material;
   * with a branch selected and a material chosen, its quantity becomes the
   * stored one, 0 when that row's quantity is null or 0
   * (`data?.quantity || 0`), and null when the request failed, as it does
   * when there is no row.
   */
  function SelectMaterial(fs: seq<Field>, index: nat, material: Id, branch: Id, fetched: Fetch): (r: seq<Field>)
    requires index < |fs|
    ensures |r| == |fs| && r[index].item == material
    ensures forall i :: 0 <= i < |fs| && i != index ==> r[i] == fs[i]
    ensures !(Truthy(branch) && Truthy(material)) ==> r[index].quantity == fs[index].quantity
    ensures Truthy(branch) && Truthy(material) && fetched.FetchError? ==> r[index].quantity == Null
    ensures Truthy(branch) && Truthy(material) && fetched.Fetched? ==>
              r[index].quantity == Entered(OrIfFalsy(fetched.quantity, 0.0))
  {
    var q := if !(Truthy(branch) && Truthy(material)) then fs[index].quantity
             else if fetched.FetchError? then Null
             else Entered(OrIfFalsy(fetched.quantity, 0.0));
    fs[index := Field(material, q)]
  }

  /** A field is rejected when it has no material, an empty quantity, or `Number(quantity) <= 0`. */
  predicate FieldValid(f: Field)
  {
    Truthy(f.item) && !f.quantity.Empty? && NumberOf(f.quantity) > 0.0
  }

  predicate AllValid(fs: seq<Field>)
  {
    forall i :: 0 <= i < |fs| ==> FieldValid(fs[i])
  }

  /** How handleSubmit ends. */
  function SubmitOutcome(branch: Id, fs: seq<Field>, failAt: Option<nat>): Outcome
  {
    if !Truthy(branch) then NoBranch
    else if !AllValid(fs) then InvalidFields
    else LoopOutcome(fs, failAt)
  }

  /** The inventory table after handleSubmit. */
  function Submitted(rows: map<Key, real>, branch: Id, today: int, fs: seq<Field>, failAt: Option<nat>): map<Key, real>
  {
    if !Truthy(branch) || !AllValid(fs) then rows
    else AfterFields(rows, branch, today, Processed(fs, failAt))
  }

  /**
   * handleSubmit: the branch check, the check of every field, then the
   * write loop over the fields in order; `today` is the current day and
   * `failAt` the field whose request fails, if any.
   */
  method HandleSubmit(store: DayStore, branch: Id, today: int, fs: seq<Field>, failAt: Option<nat>) returns (o: Outcome)
    modifies store
    ensures o == SubmitOutcome(branch, fs, failAt)
    ensures store.rows == Submitted(old(store.rows), branch, today, fs, failAt)
  {
    if branch == "" {
      return NoBranch;
    }
    var i := 0;
    while i < |fs|
      invariant 0 <= i <= |fs|
      invariant forall j :: 0 <= j < i ==> FieldValid(fs[j])
    {
      if fs[i].item == "" || fs[i].quantity.Empty? || NumberOf(fs[i].quantity) <= 0.0 {
        return InvalidFields;
      }
      i := i + 1;
    }
    o := store.WriteFields(branch, today, fs, failAt);
  }

  /** No branch, or any bad field (a zero quantity included), and nothing is written. */
  lemma RejectedWritesNothing(rows: map<Key, real>, branch: Id, today: int, fs: seq<Field>, failAt: Option<nat>)
    ensures !Truthy(branch) ==> SubmitOutcome(branch, fs, failAt) == NoBranch
    ensures Truthy(branch) && (exists i :: 0 <= i < |fs| && !FieldValid(fs[i])) ==>
              SubmitOutcome(branch, fs, failAt) == InvalidFields
    ensures (!Truthy(branch) || !AllValid(fs)) ==> Submitted(rows, branch, today, fs, failAt) == rows
    ensures forall m: Id :: !FieldValid(Field(m, Entered(0.0))) && !FieldValid(Field(m, Null))
  {
  }

  /**
   * An accepted submit adds, to each of today's rows of the branch, the
   * quantities entered for that material in the fields written before the
   * first failure, repeated materials adding up; other rows are untouched.
   */
  lemma AcceptedSubmit(rows: map<Key, real>, branch: Id, today: int, fs: seq<Field>, failAt: Option<nat>)
    requires Truthy(branch) && AllValid(fs)
    ensures var after := Submitted(rows, branch, today, fs, failAt);
            forall k ::
              ValueOf(after)(k)
              == ValueOf(rows)(k)
                 + (if k.branch == branch && k.day == today then KeyTotal(Processed(fs, failAt), FieldItem, Amount, k.item) else 0.0)
    ensures SubmitOutcome(branch, fs, failAt).Failed? <==> failAt.Some? && failAt.value < |fs|
  {
    AfterFieldsMeaning(rows, branch, today, Processed(fs, failAt));
  }
}
