/**
 * `array.sort((a, b) => key(b) - key(a))`: an in-place sort into
 * non-increasing order of a numeric key.
 */
module Sorting {
  predicate NonIncreasing<T>(s: seq<T>, key: T -> real)
  {
    forall i, j :: 0 <= i < j < |s| ==> key(s[i]) >= key(s[j])
  }

  /** The first `n` elements of `a` are in non-increasing key order. */
  ghost predicate PrefixSorted<T>(a: array<T>, n: int, key: T -> real)
    reads a
    requires 0 <= n <= a.Length
  {
    forall p, q :: 0 <= p < q < n ==> key(a[p]) >= key(a[q])
  }

  method Swap<T>(a: array<T>, i: int, j: int)
    requires 0 <= i < a.Length && 0 <= j < a.Length
    modifies a
    ensures a[i] == old(a[j]) && a[j] == old(a[i])
    ensures forall k :: 0 <= k < a.Length && k != i && k != j ==> a[k] == old(a[k])
    ensures multiset(a[..]) == multiset(old(a[..]))
  {
    a[i], a[j] := a[j], a[i];
  }

  /** Moves `a[i]` left past every element of smaller key, keeping the prefix sorted. */
  method InsertLeft<T>(a: array<T>, i: int, key: T -> real)
    requires 0 <= i < a.Length && PrefixSorted(a, i, key)
    modifies a
    ensures PrefixSorted(a, i + 1, key)
    ensures multiset(a[..]) == multiset(old(a[..]))
  {
    var j := i;
    while j > 0 && key(a[j - 1]) < key(a[j])
      invariant 0 <= j <= i
      invariant multiset(a[..]) == multiset(old(a[..]))
      invariant forall p, q :: 0 <= p < q <= i && p != j && q != j ==> key(a[p]) >= key(a[q])
      invariant forall q :: j < q <= i ==> key(a[q]) < key(a[j])
    {
      Swap(a, j - 1, j);
      j := j - 1;
    }
  }

  /** Insertion sort; the result is a permutation of the input. */
  method SortDescending<T>(a: array<T>, key: T -> real)
    modifies a
    ensures NonIncreasing(a[..], key)
    ensures multiset(a[..]) == multiset(old(a[..]))
  {
    var i := 0;
    while i < a.Length
      invariant 0 <= i <= a.Length
      invariant PrefixSorted(a, i, key)
      invariant multiset(a[..]) == multiset(old(a[..]))
    {
      InsertLeft(a, i, key);
      i := i + 1;
    }
  }

  /** Sorting a sequence through a fresh array. */
  method SortedDescending<T>(s: seq<T>, key: T -> real) returns (r: seq<T>)
    ensures NonIncreasing(r, key)
    ensures multiset(r) == multiset(s)
    ensures |r| == |s|
  {
    if |s| == 0 {
      return [];
    }
    var a := new T[|s|](i requires 0 <= i < |s| => s[i]);
    assert a[..] == s;
    SortDescending(a, key);
    r := a[..];
    assert |r| == |multiset(r)| == |multiset(s)| == |s|;
  }
}
