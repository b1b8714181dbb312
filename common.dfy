/**
 * Shared value model for the back-office screens.
 *
 * Numeric database columns arrive as a number or as null/absent; they are
 * modelled as `Option<real>`.  On such values the screens' coercions
 * `x ?? 0`, `Number(x) || 0`, `x || 0` and `typeof x === "number" ? x : 0`
 * all give the same number, written `OrZero` here.  A falsy fallback other
 * than zero (`x || 1`) is different, because a stored 0 is replaced too: that
 * is `OrIfFalsy`.
 *
 * Identifiers are strings; the empty string stands for every falsy id
 * (null, undefined and "").
 */
module Common {

  datatype Option<T> = None | Some(value: T) {
    function GetOr(default: T): T { if Some? then value else default }
  }

  type Id = string

  /** JavaScript truthiness of an identifier. */
  predicate Truthy(id: Id) { id != "" }

  /** `x ?? 0` (equivalently `Number(x) || 0`) on a nullable number. */
  function OrZero(x: Option<real>): (r: real)
    ensures x.None? ==> r == 0.0
    ensures x.Some? ==> r == x.value
  {
    x.GetOr(0.0)
  }

  /** `x || d` on a nullable number: null and a stored 0 both give `d`. */
  function OrIfFalsy(x: Option<real>, d: real): (r: real)
    ensures x.Some? && x.value != 0.0 ==> r == x.value
    ensures x.None? || x.value == 0.0 ==> r == d
  {
    if x.Some? && x.value != 0.0 then x.value else d
  }

  /** `s || d` on a string: the empty string gives `d`. */
  function TextOr(s: string, d: string): (r: string)
    ensures s != "" ==> r == s
    ensures s == "" ==> r == d
  {
    if s != "" then s else d
  }

  // ------------------------------------------------------------------
  // Sums and filters, defined from the last element so that a loop that
  // walks a sequence from the front keeps `acc == Sum(s[..i], f)`.
  // ------------------------------------------------------------------

  function Sum<T>(s: seq<T>, f: T -> real): real
  {
    if |s| == 0 then 0.0 else Sum(s[..|s| - 1], f) + f(s[|s| - 1])
  }

  lemma {:induction false} SumAppend<T>(a: seq<T>, b: seq<T>, f: T -> real)
    ensures Sum(a + b, f) == Sum(a, f) + Sum(b, f)
  {
    if |b| == 0 {
      assert a + b == a;
    } else {
      assert (a + b)[..|a + b| - 1] == a + b[..|b| - 1];
      SumAppend(a, b[..|b| - 1], f);
    }
  }

  lemma SumSnoc<T>(s: seq<T>, i: nat, f: T -> real)
    requires i < |s|
    ensures Sum(s[..i + 1], f) == Sum(s[..i], f) + f(s[i])
  {
    assert s[..i + 1][..i] == s[..i];
  }

  /** Replacing one element changes the sum by the difference of the two values. */
  lemma {:induction false} SumUpdate<T>(s: seq<T>, i: nat, x: T, f: T -> real)
    requires i < |s|
    ensures Sum(s[i := x], f) == Sum(s, f) - f(s[i]) + f(x)
  {
    var t := s[i := x];
    if i == |s| - 1 {
      assert t[..|t| - 1] == s[..|s| - 1];
    } else {
      assert t[..|t| - 1] == s[..|s| - 1][i := x];
      SumUpdate(s[..|s| - 1], i, x, f);
    }
  }

  lemma SumCons<T>(x: T, s: seq<T>, f: T -> real)
    ensures Sum([x] + s, f) == f(x) + Sum(s, f)
  {
    SumAppend([x], s, f);
    assert [x][..0] == [];
  }

  /** Sums of pointwise-equal summands over the same sequence agree. */
  lemma {:induction false} SumCongruent<T>(s: seq<T>, f: T -> real, g: T -> real)
    requires forall i :: 0 <= i < |s| ==> f(s[i]) == g(s[i])
    ensures Sum(s, f) == Sum(s, g)
  {
    if |s| > 0 {
      SumCongruent(s[..|s| - 1], f, g);
    }
  }

  /** A common factor moves out of a sum. */
  lemma {:induction false} SumScale<T>(s: seq<T>, c: real, f: T -> real, g: T -> real)
    requires forall i :: 0 <= i < |s| ==> g(s[i]) == c * f(s[i])
    ensures Sum(s, g) == c * Sum(s, f)
  {
    if |s| > 0 {
      SumScale(s[..|s| - 1], c, f, g);
    }
  }

  /** A sum of non-negative summands is non-negative. */
  lemma {:induction false} SumNonNegative<T>(s: seq<T>, f: T -> real)
    requires forall i :: 0 <= i < |s| ==> f(s[i]) >= 0.0
    ensures Sum(s, f) >= 0.0
  {
    if |s| > 0 {
      SumNonNegative(s[..|s| - 1], f);
    }
  }

  /** `s.filter(p)`: the elements satisfying `p`, in their original order. */
  function Filter<T(==, !new)>(s: seq<T>, p: T -> bool): (r: seq<T>)
    ensures |r| <= |s|
    ensures forall x :: x in r <==> x in s && p(x)
  {
    if |s| == 0 then []
    else Filter(s[..|s| - 1], p) + (if p(s[|s| - 1]) then [s[|s| - 1]] else [])
  }

  /** A predicate every element satisfies filters nothing out. */
  lemma {:induction false} FilterAll<T(!new)>(s: seq<T>, p: T -> bool)
    requires forall i :: 0 <= i < |s| ==> p(s[i])
    ensures Filter(s, p) == s
  {
    if |s| > 0 {
      var init := s[..|s| - 1];
      forall i | 0 <= i < |init| ensures p(init[i]) { assert init[i] == s[i]; }
      FilterAll(init, p);
      assert Filter(s, p) == Filter(init, p) + [s[|s| - 1]];
      assert s == init + [s[|s| - 1]];
    }
  }

  lemma {:induction false} FilterAppend<T(!new)>(a: seq<T>, b: seq<T>, p: T -> bool)
    ensures Filter(a + b, p) == Filter(a, p) + Filter(b, p)
  {
    if |b| == 0 {
      assert a + b == a;
    } else {
      var last := b[|b| - 1];
      assert (a + b)[..|a + b| - 1] == a + b[..|b| - 1];
      FilterAppend(a, b[..|b| - 1], p);
      assert Filter(a + b, p) == Filter(a + b[..|b| - 1], p) + (if p(last) then [last] else []);
      assert Filter(b, p) == Filter(b[..|b| - 1], p) + (if p(last) then [last] else []);
    }
  }

  /** Reordering the elements does not change the sum. */
  lemma {:induction false} SumPermutation<T>(a: seq<T>, b: seq<T>, f: T -> real)
    requires multiset(a) == multiset(b)
    ensures Sum(a, f) == Sum(b, f)
  {
    if |a| == 0 {
      assert |b| == |multiset(b)| == 0;
    } else {
      var n := |a| - 1;
      var x := a[n];
      assert a == a[..n] + [x];
      assert x in multiset(b);
      var k :| 0 <= k < |b| && b[k] == x;
      var b' := b[..k] + b[k + 1..];
      assert b == b[..k] + [x] + b[k + 1..];
      calc {
        multiset(a[..n]);
        multiset(a) - multiset{x};
        multiset(b[..k] + [x] + b[k + 1..]) - multiset{x};
        multiset(b[..k]) + multiset(b[k + 1..]);
        multiset(b');
      }
      SumPermutation(a[..n], b', f);
      SumAppend(b[..k], [x], f);
      SumAppend(b[..k] + [x], b[k + 1..], f);
      SumAppend(b[..k], b[k + 1..], f);
      SumAppend(a[..n], [x], f);
    }
  }

  /** One more element: the filter of a longer prefix. */
  lemma FilterStep<T(!new)>(s: seq<T>, i: nat, p: T -> bool)
    requires i < |s|
    ensures Filter(s[..i + 1], p) == Filter(s[..i], p) + (if p(s[i]) then [s[i]] else [])
  {
    assert s[..i + 1][..i] == s[..i];
  }

  /** Splitting a sum by a predicate and its negation: the two filtered parts add up to the whole. */
  lemma {:induction false} SumFilterSplit<T(!new)>(s: seq<T>, p: T -> bool, q: T -> bool, f: T -> real)
    requires forall x :: q(x) == !p(x)
    ensures Sum(Filter(s, p), f) + Sum(Filter(s, q), f) == Sum(s, f)
  {
    if |s| > 0 {
      var init, last := s[..|s| - 1], s[|s| - 1];
      SumFilterSplit(init, p, q, f);
      SumAppend(Filter(init, p), if p(last) then [last] else [], f);
      SumAppend(Filter(init, q), if q(last) then [last] else [], f);
    }
  }

  /** Summing over a filter is summing with a zero for each rejected element. */
  lemma {:induction false} SumFilterAsGuard<T(!new)>(s: seq<T>, p: T -> bool, f: T -> real, g: T -> real)
    requires forall x :: g(x) == if p(x) then f(x) else 0.0
    ensures Sum(Filter(s, p), f) == Sum(s, g)
  {
    if |s| > 0 {
      var init, last := s[..|s| - 1], s[|s| - 1];
      SumFilterAsGuard(init, p, f, g);
      SumAppend(Filter(init, p), if p(last) then [last] else [], f);
    }
  }

  // ------------------------------------------------------------------
  // First match: `array.find(p)` / `findIndex(p)`.
  // ------------------------------------------------------------------

  /** The index of the first element satisfying `p`, or None when none does. */
  function FindFirst<T>(s: seq<T>, p: T -> bool): (k: Option<nat>)
    ensures k.None? ==> forall j :: 0 <= j < |s| ==> !p(s[j])
    ensures k.Some? ==> k.value < |s| && p(s[k.value]) && forall j :: 0 <= j < k.value ==> !p(s[j])
  {
    if |s| == 0 then None
    else if p(s[0]) then Some(0)
    else
      var k := FindFirst(s[1..], p);
      if k.Some? then Some(k.value + 1) else None
  }

  /** `array.find(p)`: the first element satisfying `p`, or None when none does. */
  function Find<T>(s: seq<T>, p: T -> bool): (r: Option<T>)
    ensures r.None? <==> forall j :: 0 <= j < |s| ==> !p(s[j])
    ensures r.Some? ==> r.value in s && p(r.value)
    ensures forall j :: 0 <= j < |s| && p(s[j]) && (forall i :: 0 <= i < j ==> !p(s[i])) ==> r == Some(s[j])
  {
    var k := FindFirst(s, p);
    if k.Some? then Some(s[k.value]) else None
  }

  // ------------------------------------------------------------------
  // Last-write-wins indexing: `rows.forEach(r => m[key(r)] = val(r))`.
  // ------------------------------------------------------------------

  function IndexWith<T, K(==), V>(rows: seq<T>, key: T -> K, val: T -> V): (m: map<K, V>)
    ensures forall i :: 0 <= i < |rows| ==> key(rows[i]) in m
  {
    if |rows| == 0 then map[]
    else
      var init := rows[..|rows| - 1];
      var m0 := IndexWith(init, key, val);
      assert forall i :: 0 <= i < |init| ==> init[i] == rows[i];
      m0[key(rows[|rows| - 1]) := val(rows[|rows| - 1])]
  }

  /** Every key of the index belongs to some row. */
  lemma {:induction false} IndexWithKeys<T, K, V>(rows: seq<T>, key: T -> K, val: T -> V)
    ensures forall k :: k in IndexWith(rows, key, val) ==> exists i :: 0 <= i < |rows| && key(rows[i]) == k
  {
    if |rows| > 0 {
      var init := rows[..|rows| - 1];
      IndexWithKeys(init, key, val);
      forall k | k in IndexWith(rows, key, val)
        ensures exists i :: 0 <= i < |rows| && key(rows[i]) == k
      {
        assert IndexWith(rows, key, val) == IndexWith(init, key, val)[key(rows[|rows| - 1]) := val(rows[|rows| - 1])];
        if k != key(rows[|rows| - 1]) {
          assert k in IndexWith(init, key, val);
          var i :| 0 <= i < |init| && key(init[i]) == k;
          assert init[i] == rows[i];
        }
      }
    }
  }

  /** Row `i` is the last row carrying its key. */
  predicate LastWithKey<T, K(==)>(rows: seq<T>, key: T -> K, i: int)
  {
    0 <= i < |rows| && forall j :: i < j < |rows| ==> key(rows[j]) != key(rows[i])
  }

  /** Under last-write-wins indexing, every key maps to the value of its last row. */
  lemma {:induction false} IndexWithLastWins<T, K, V>(rows: seq<T>, key: T -> K, val: T -> V, i: int)
    requires LastWithKey(rows, key, i)
    ensures key(rows[i]) in IndexWith(rows, key, val)
    ensures IndexWith(rows, key, val)[key(rows[i])] == val(rows[i])
  {
    if i < |rows| - 1 {
      var init := rows[..|rows| - 1];
      assert LastWithKey(init, key, i) by {
        forall j | i < j < |init| ensures key(init[j]) != key(init[i]) {
          assert init[j] == rows[j];
        }
      }
      IndexWithLastWins(init, key, val, i);
      assert init[i] == rows[i];
    }
  }

  /** Every key of a non-empty row sequence has a last row. */
  lemma {:induction false} LastRowExists<T, K>(rows: seq<T>, key: T -> K, k: K)
    requires exists i :: 0 <= i < |rows| && key(rows[i]) == k
    ensures exists i :: LastWithKey(rows, key, i) && key(rows[i]) == k
  {
    var n := |rows| - 1;
    if key(rows[n]) == k {
      assert LastWithKey(rows, key, n);
    } else {
      var init := rows[..n];
      var i0 :| 0 <= i0 < |rows| && key(rows[i0]) == k;
      assert i0 < n && init[i0] == rows[i0];
      LastRowExists(init, key, k);
      var i :| LastWithKey(init, key, i) && key(init[i]) == k;
      assert init[i] == rows[i];
      assert LastWithKey(rows, key, i);
    }
  }

  /** The `forEach` loop that fills an index object, with last write winning. */
  method BuildIndexWith<T, K(==), V>(rows: seq<T>, key: T -> K, val: T -> V) returns (m: map<K, V>)
    ensures m == IndexWith(rows, key, val)
    ensures forall i :: 0 <= i < |rows| ==> key(rows[i]) in m
    ensures forall k :: k in m ==> exists i :: LastWithKey(rows, key, i) && key(rows[i]) == k
    ensures forall i :: LastWithKey(rows, key, i) ==> m[key(rows[i])] == val(rows[i])
  {
    m := map[];
    var i := 0;
    while i < |rows|
      invariant 0 <= i <= |rows|
      invariant m == IndexWith(rows[..i], key, val)
    {
      assert rows[..i + 1][..i] == rows[..i];
      m := m[key(rows[i]) := val(rows[i])];
      i := i + 1;
    }
    assert rows[..|rows|] == rows;
    IndexWithKeys(rows, key, val);
    forall i | LastWithKey(rows, key, i) ensures m[key(rows[i])] == val(rows[i]) {
      IndexWithLastWins(rows, key, val, i);
    }
    forall k | k in m ensures exists i :: LastWithKey(rows, key, i) && key(rows[i]) == k {
      LastRowExists(rows, key, k);
    }
  }

  // ------------------------------------------------------------------
  // Text: `toLowerCase` on ASCII letters and `includes`.
  // ------------------------------------------------------------------

  function LowerChar(c: char): char
  {
    if 'A' <= c <= 'Z' then (c as int + 32) as char else c
  }

  /** `s.toLowerCase()`, for ASCII letters. */
  function Lower(s: string): (r: string)
    ensures |r| == |s|
    ensures forall i :: 0 <= i < |s| ==> r[i] == LowerChar(s[i])
  {
    if |s| == 0 then "" else Lower(s[..|s| - 1]) + [LowerChar(s[|s| - 1])]
  }

  /** Lower-casing twice changes nothing more, so a case-insensitive test is insensitive to its own folding. */
  lemma LowerIdempotent(s: string)
    ensures Lower(Lower(s)) == Lower(s)
  {
    assert forall i :: 0 <= i < |s| ==> LowerChar(LowerChar(s[i])) == LowerChar(s[i]);
  }

  /** `s.includes(sub)`: `sub` occurs in `s` at some position. */
  predicate Includes(s: string, sub: string)
    decreases |s|
  {
    sub <= s || (|s| > 0 && Includes(s[1..], sub))
  }

  lemma IncludesEmpty(s: string)
    ensures Includes(s, "")
  {
  }

  // ------------------------------------------------------------------
  // Grouping: `rows.forEach(r => { if (!acc[key(r)]) acc[key(r)] = 0;
  // acc[key(r)] += amount(r) })`, read back with `Object.entries` in
  // insertion order.
  // ------------------------------------------------------------------

  predicate Distinct<K(==)>(ks: seq<K>)
  {
    forall i, j :: 0 <= i < j < |ks| ==> ks[i] != ks[j]
  }

  /** The keys of the rows in order of first appearance. */
  function FirstKeys<T, K(==)>(rows: seq<T>, key: T -> K): seq<K>
  {
    if |rows| == 0 then []
    else
      var ks0 := FirstKeys(rows[..|rows| - 1], key);
      var k := key(rows[|rows| - 1]);
      if k in ks0 then ks0 else ks0 + [k]
  }

  /** Each key appears once, and every row's key appears. */
  lemma {:induction false} FirstKeysFacts<T, K>(rows: seq<T>, key: T -> K)
    ensures Distinct(FirstKeys(rows, key))
    ensures forall i :: 0 <= i < |rows| ==> key(rows[i]) in FirstKeys(rows, key)
  {
    if |rows| > 0 {
      var init := rows[..|rows| - 1];
      FirstKeysFacts(init, key);
      assert forall i :: 0 <= i < |init| ==> init[i] == rows[i];
    }
  }

  /** Each of the keys is the key of some row. */
  lemma {:induction false} FirstKeysFrom<T, K>(rows: seq<T>, key: T -> K)
    ensures forall j :: 0 <= j < |FirstKeys(rows, key)| ==>
              exists i :: 0 <= i < |rows| && key(rows[i]) == FirstKeys(rows, key)[j]
  {
    if |rows| > 0 {
      var init := rows[..|rows| - 1];
      FirstKeysFrom(init, key);
      var ks := FirstKeys(rows, key);
      var ks0 := FirstKeys(init, key);
      var k := key(rows[|rows| - 1]);
      assert ks == if k in ks0 then ks0 else ks0 + [k];
      forall j | 0 <= j < |ks|
        ensures exists i :: 0 <= i < |rows| && key(rows[i]) == ks[j]
      {
        if j < |ks0| {
          var i :| 0 <= i < |init| && key(init[i]) == ks0[j];
          assert init[i] == rows[i];
        } else {
          assert key(rows[|rows| - 1]) == ks[j];
        }
      }
    } else {
      assert FirstKeys(rows, key) == [];
    }
  }

  /** A numeric record read with absent keys as 0. */
  function ValueOf<K(==)>(m: map<K, real>): K -> real
  {
    (k: K) => if k in m then m[k] else 0.0
  }

  function AmountWithKey<T, K(==)>(key: T -> K, amount: T -> real, k: K): T -> real
  {
    (r: T) => if key(r) == k then amount(r) else 0.0
  }

  /** The total of the rows carrying key `k`. */
  function KeyTotal<T, K(==)>(rows: seq<T>, key: T -> K, amount: T -> real, k: K): real
  {
    Sum(rows, AmountWithKey(key, amount, k))
  }

  /** Over distinct keys, changing one entry of a record changes the sum by the difference. */
  lemma {:induction false} SumMapUpdate<K>(order: seq<K>, m: map<K, real>, k: K, v: real)
    requires Distinct(order)
    ensures Sum(order, ValueOf(m[k := v]))
         == Sum(order, ValueOf(m)) + (if k in order then v - ValueOf(m)(k) else 0.0)
  {
    if |order| > 0 {
      var init := order[..|order| - 1];
      assert Distinct(init) by {
        forall i, j | 0 <= i < j < |init| ensures init[i] != init[j] {
          assert init[i] == order[i] && init[j] == order[j];
        }
      }
      SumMapUpdate(init, m, k, v);
      var last := order[|order| - 1];
      if k == last {
        assert k !in init by {
          forall i | 0 <= i < |init| ensures init[i] != k {
            assert init[i] == order[i];
          }
        }
      } else {
        assert k in order <==> k in init;
      }
    }
  }

  lemma OrderStep<T, K>(rows: seq<T>, key: T -> K, i: nat)
    requires i < |rows|
    ensures FirstKeys(rows[..i + 1], key)
         == if key(rows[i]) in FirstKeys(rows[..i], key) then FirstKeys(rows[..i], key)
            else FirstKeys(rows[..i], key) + [key(rows[i])]
  {
    assert rows[..i + 1][..i] == rows[..i];
  }

  lemma TotalsStep<T, K>(rows: seq<T>, key: T -> K, amount: T -> real, i: nat, totals: map<K, real>,
                         prefix: seq<T>, next: map<K, real>)
    requires i < |rows| && prefix == rows[..i + 1]
    requires next == totals[key(rows[i]) := ValueOf(totals)(key(rows[i])) + amount(rows[i])]
    requires forall k :: ValueOf(totals)(k) == KeyTotal(rows[..i], key, amount, k)
    ensures forall k :: ValueOf(next)(k) == KeyTotal(prefix, key, amount, k)
  {
    forall k ensures ValueOf(next)(k) == KeyTotal(prefix, key, amount, k) {
      SumSnoc(rows, i, AmountWithKey(key, amount, k));
      assert KeyTotal(prefix, key, amount, k)
          == KeyTotal(rows[..i], key, amount, k) + AmountWithKey(key, amount, k)(rows[i]);
    }
  }

  lemma SumStep<K>(order: seq<K>, totals: map<K, real>, k: K, a: real)
    requires Distinct(order)
    requires forall k' :: k' in totals <==> k' in order
    ensures var t := totals[k := ValueOf(totals)(k) + a];
            var o := if k in order then order else order + [k];
            Sum(o, ValueOf(t)) == Sum(order, ValueOf(totals)) + a
  {
    var t := totals[k := ValueOf(totals)(k) + a];
    SumMapUpdate(order, totals, k, ValueOf(totals)(k) + a);
    if k !in order {
      SumAppend(order, [k], ValueOf(t));
      assert ValueOf(totals)(k) == 0.0;
    }
  }

  /** The grouping loop, with the record and its key order. */
  method GroupSum<T, K(==)>(rows: seq<T>, key: T -> K, amount: T -> real) returns (order: seq<K>, totals: map<K, real>)
    ensures order == FirstKeys(rows, key)
    ensures forall k :: k in totals <==> k in order
    ensures forall k :: ValueOf(totals)(k) == KeyTotal(rows, key, amount, k)
    ensures Sum(order, ValueOf(totals)) == Sum(rows, amount)
  {
    order, totals := [], map[];
    var i := 0;
    while i < |rows|
      invariant 0 <= i <= |rows|
      invariant order == FirstKeys(rows[..i], key)
      invariant forall k :: k in totals <==> k in order
      invariant forall k :: ValueOf(totals)(k) == KeyTotal(rows[..i], key, amount, k)
      invariant Sum(order, ValueOf(totals)) == Sum(rows[..i], amount)
    {
      var k, a := key(rows[i]), amount(rows[i]);
      TotalsStep(rows, key, amount, i, totals, rows[..i + 1], totals[k := ValueOf(totals)(k) + a]);
      FirstKeysFacts(rows[..i], key);
      OrderStep(rows, key, i);
      SumStep(order, totals, k, a);
      SumSnoc(rows, i, amount);
      if k !in totals {
        order := order + [k];
      }
      totals := totals[k := ValueOf(totals)(k) + a];
      i := i + 1;
    }
    assert rows[..|rows|] == rows;
  }
}
