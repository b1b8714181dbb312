/**
 * The per-day stock tables (`inventory`, `product_inventory`) as the two
 * insert dialogs use them: a record keyed by (branch, item, day), and the
 * submit loop that adds each entered quantity to the day's row, stopping
 * at the first failed request.
 */
module StockStore {
  import opened Common

  /** One row per branch, item (material or product) and day; `day` is the day index of `updated_at`. */
  datatype Key = Key(branch: Id, item: Id, day: int)

  /** A field's quantity input: the initial `""`, a stored `null`, or a number. */
  datatype FieldQuantity = Empty | Null | Entered(value: real)

  /** A dialog row: the chosen material or product and its quantity. */
  datatype Field = Field(item: Id, quantity: FieldQuantity)

  /** `Number(field.quantity)` for a field that passed `quantity !== ""`: `Number(null)` is 0. */
  function NumberOf(q: FieldQuantity): real
  {
    if q.Entered? then q.value else 0.0
  }

  function FieldItem(f: Field): Id { f.item }
  function Amount(f: Field): real { NumberOf(f.quantity) }

  /** The new field of `add*Field`. */
  const EmptyField: Field := Field("", Empty)

  /** `add*Field`: an empty field goes last. */
  function AddField(fs: seq<Field>): (r: seq<Field>)
    ensures |r| == |fs| + 1 && r[|fs|] == EmptyField
    ensures forall i :: 0 <= i < |fs| ==> r[i] == fs[i]
  {
    fs + [EmptyField]
  }

  /** `remove*Field(index)`: `filter((_, i) => i !== index)`. */
  function RemoveField(fs: seq<Field>, index: int): (r: seq<Field>)
    ensures !(0 <= index < |fs|) ==> r == fs
    ensures 0 <= index < |fs| ==> |r| == |fs| - 1
    ensures forall i :: 0 <= i < |r| ==> r[i] == (if 0 <= index <= i then fs[i + 1] else fs[i])
  {
    if 0 <= index < |fs| then fs[..index] + fs[index + 1..] else fs
  }

  /** Removing the field just added gives the fields back. */
  lemma RemoveUndoesAdd(fs: seq<Field>)
    ensures RemoveField(AddField(fs), |fs|) == fs
  {
    assert (fs + [EmptyField])[..|fs|] == fs;
  }

  /** Entering a quantity in field `index`; the other fields are untouched. */
  function SetQuantity(fs: seq<Field>, index: nat, q: FieldQuantity): (r: seq<Field>)
    requires index < |fs|
    ensures |r| == |fs| && r[index] == Field(fs[index].item, q)
    ensures forall i :: 0 <= i < |fs| && i != index ==> r[i] == fs[i]
  {
    fs[index := fs[index].(quantity := q)]
  }

  /** The day's row for `k` after adding `amount` to it (a missing row counts as 0). */
  function Added(rows: map<Key, real>, k: Key, amount: real): map<Key, real>
  {
    rows[k := ValueOf(rows)(k) + amount]
  }

  /** The store after the fields have been written one after the other, each onto the store the previous one left. */
  function AfterFields(rows: map<Key, real>, branch: Id, day: int, fs: seq<Field>): map<Key, real>
  {
    if |fs| == 0 then rows
    else
      var f := fs[|fs| - 1];
      Added(AfterFields(rows, branch, day, fs[..|fs| - 1]), Key(branch, f.item, day), Amount(f))
  }

  /** The fields that reach the store: those before the first failure, or all of them. */
  function Processed(fs: seq<Field>, failAt: Option<nat>): (r: seq<Field>)
    ensures failAt.Some? && failAt.value < |fs| ==> r == fs[..failAt.value]
    ensures !(failAt.Some? && failAt.value < |fs|) ==> r == fs
  {
    if failAt.Some? && failAt.value < |fs| then fs[..failAt.value] else fs
  }

  /** How a submit ended. */
  datatype Outcome = NoBranch | InvalidFields | Failed(at: nat) | Done

  /** The loop's own ending: the first failed field, if any. */
  function LoopOutcome(fs: seq<Field>, failAt: Option<nat>): (o: Outcome)
    ensures o.Failed? <==> failAt.Some? && failAt.value < |fs|
    ensures o.Failed? ==> o.at == failAt.value
    ensures !o.Failed? ==> o == Done
  {
    if failAt.Some? && failAt.value < |fs| then Failed(failAt.value) else Done
  }

  /**
   * What the writes do: each (branch, item, day) row of the submitted
   * branch and day grows by the total entered for that item, repeated items
   * adding up; every other row keeps its value; and a row exists afterwards
   * exactly when it existed before or some field names its item.
   */
  lemma {:induction false} AfterFieldsMeaning(rows: map<Key, real>, branch: Id, day: int, fs: seq<Field>)
    ensures forall k ::
              ValueOf(AfterFields(rows, branch, day, fs))(k)
              == ValueOf(rows)(k) + (if k.branch == branch && k.day == day then KeyTotal(fs, FieldItem, Amount, k.item) else 0.0)
    ensures forall k ::
              k in AfterFields(rows, branch, day, fs)
              <==> k in rows || (k.branch == branch && k.day == day && exists i :: 0 <= i < |fs| && fs[i].item == k.item)
  {
    if |fs| > 0 {
      var init := fs[..|fs| - 1];
      var f := fs[|fs| - 1];
      AfterFieldsMeaning(rows, branch, day, init);
      var prev := AfterFields(rows, branch, day, init);
      var next := AfterFields(rows, branch, day, fs);
      assert next == Added(prev, Key(branch, f.item, day), Amount(f));
      forall k
        ensures ValueOf(next)(k)
             == ValueOf(rows)(k) + (if k.branch == branch && k.day == day then KeyTotal(fs, FieldItem, Amount, k.item) else 0.0)
      {
        assert KeyTotal(fs, FieldItem, Amount, k.item)
            == KeyTotal(init, FieldItem, Amount, k.item) + AmountWithKey(FieldItem, Amount, k.item)(f);
        assert ValueOf(prev)(k)
            == ValueOf(rows)(k) + (if k.branch == branch && k.day == day then KeyTotal(init, FieldItem, Amount, k.item) else 0.0);
        assert AmountWithKey(FieldItem, Amount, k.item)(f) == if FieldItem(f) == k.item then Amount(f) else 0.0;
        var kk := Key(branch, f.item, day);
        if k == kk {
          assert ValueOf(next)(k) == ValueOf(prev)(k) + Amount(f);
        } else {
          assert ValueOf(next)(k) == ValueOf(prev)(k);
          assert k.branch == branch && k.day == day ==> f.item != k.item;
        }
      }
      forall k
        ensures k in next
            <==> k in rows || (k.branch == branch && k.day == day && exists i :: 0 <= i < |fs| && fs[i].item == k.item)
      {
        if k.branch == branch && k.day == day && (exists i :: 0 <= i < |fs| && fs[i].item == k.item) {
          var i :| 0 <= i < |fs| && fs[i].item == k.item;
          if i < |init| {
            assert init[i] == fs[i];
          }
        }
        if exists i :: 0 <= i < |init| && init[i].item == k.item {
          var i :| 0 <= i < |init| && init[i].item == k.item;
          assert fs[i] == init[i];
        }
      }
    }
  }

  /** A row outside the submitted branch and day is never touched. */
  lemma OtherRowsUnchanged(rows: map<Key, real>, branch: Id, day: int, fs: seq<Field>, k: Key)
    requires k.branch != branch || k.day != day
    ensures k in AfterFields(rows, branch, day, fs) <==> k in rows
    ensures k in rows ==> AfterFields(rows, branch, day, fs)[k] == rows[k]
  {
    AfterFieldsMeaning(rows, branch, day, fs);
    assert ValueOf(AfterFields(rows, branch, day, fs))(k) == ValueOf(rows)(k);
  }

  /** The inventory table, changed in place by the submit loop. */
  class DayStore {
    var rows: map<Key, real>

    constructor (rows0: map<Key, real>)
      ensures rows == rows0
    {
      rows := rows0;
    }

    /**
     * The `for (const field of fields)` loop: for each field read today's
     * row (or 0), then update it or insert it with the old quantity plus the
     * entered one. The read or write of field `failAt` fails, which ends
     * the loop with that field and the later ones unwritten.
     */
    method WriteFields(branch: Id, day: int, fs: seq<Field>, failAt: Option<nat>) returns (o: Outcome)
      modifies this
      ensures o == LoopOutcome(fs, failAt)
      ensures rows == AfterFields(old(rows), branch, day, Processed(fs, failAt))
    {
      ghost var rows0 := rows;
      var i := 0;
      while i < |fs|
        invariant 0 <= i <= |fs|
        invariant failAt.Some? ==> failAt.value >= i
        invariant rows == AfterFields(rows0, branch, day, fs[..i])
      {
        if failAt == Some(i) {
          return Failed(i);
        }
        var k := Key(branch, fs[i].item, day);
        var current := if k in rows then rows[k] else 0.0;
        rows := rows[k := current + NumberOf(fs[i].quantity)];
        assert fs[..i + 1][..i] == fs[..i];
        i := i + 1;
      }
      assert fs[..i] == fs;
      return Done;
    }
  }
}
