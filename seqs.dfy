/**
 * The two list primitives the slices and components rely on: `find`/`findIndex`
 * (the FIRST element whose key matches) and `filter(x => key(x) !== k)`.
 */
module Seqs {

  /** `s.findIndex(x => key(x) === k)`: -1 when there is no match. */
  function FirstIndex<T, K(==)>(s: seq<T>, key: T -> K, k: K): (r: int)
    ensures -1 <= r < |s|
    ensures r == -1 <==> forall i :: 0 <= i < |s| ==> key(s[i]) != k
    ensures 0 <= r ==> key(s[r]) == k && forall i :: 0 <= i < r ==> key(s[i]) != k
  {
    if s == [] then -1
    else if key(s[0]) == k then 0
    else
      var r := FirstIndex(s[1..], key, k);
      if r == -1 then -1 else r + 1
  }

  /** The search loop behind `find`/`findIndex`. */
  method FindFirst<T, K(==)>(s: seq<T>, key: T -> K, k: K) returns (index: int)
    ensures index == FirstIndex(s, key, k)
  {
    index := 0;
    while index < |s|
      invariant 0 <= index <= |s|
      invariant forall i :: 0 <= i < index ==> key(s[i]) != k
    {
      if key(s[index]) == k {
        return;
      }
      index := index + 1;
    }
    index := -1;
  }

  /** Two lists with the same keys, position by position, have the same first-match indices. */
  lemma {:induction false} FirstIndexSameKeys<T, K>(s: seq<T>, t: seq<T>, key: T -> K, k: K)
    requires |s| == |t| && forall j :: 0 <= j < |s| ==> key(s[j]) == key(t[j])
    ensures FirstIndex(s, key, k) == FirstIndex(t, key, k)
  {
    if s != [] {
      FirstIndexSameKeys(s[1..], t[1..], key, k);
    }
  }

  /** `s.filter(x => key(x) !== k)`: every element whose key is k is dropped. */
  function FilterOut<T, K(==)>(s: seq<T>, key: T -> K, k: K): (r: seq<T>)
    ensures |r| <= |s|
    ensures forall i :: 0 <= i < |r| ==> key(r[i]) != k
    ensures forall x :: x in s && key(x) != k ==> x in r
    ensures forall x :: x in r ==> x in s
  {
    if s == [] then []
    else if key(s[0]) == k then FilterOut(s[1..], key, k)
    else [s[0]] + FilterOut(s[1..], key, k)
  }

  /** Filtering distributes over concatenation: the kept elements stay in their order. */
  lemma {:induction false} FilterOutConcat<T, K>(a: seq<T>, b: seq<T>, key: T -> K, k: K)
    ensures FilterOut(a + b, key, k) == FilterOut(a, key, k) + FilterOut(b, key, k)
  {
    if a != [] {
      assert (a + b)[1..] == a[1..] + b;
      FilterOutConcat(a[1..], b, key, k);
    } else {
      assert a + b == b;
    }
  }

  /** A list with no matching element is left exactly as it was. */
  lemma {:induction false} FilterOutNoMatch<T, K>(s: seq<T>, key: T -> K, k: K)
    requires forall i :: 0 <= i < |s| ==> key(s[i]) != k
    ensures FilterOut(s, key, k) == s
  {
    if s != [] {
      FilterOutNoMatch(s[1..], key, k);
    }
  }

  /** Number of elements whose key is k. */
  function CountKey<T, K(==)>(s: seq<T>, key: T -> K, k: K): (n: nat)
    ensures n <= |s|
    ensures n == 0 <==> forall i :: 0 <= i < |s| ==> key(s[i]) != k
  {
    if s == [] then 0 else (if key(s[0]) == k then 1 else 0) + CountKey(s[1..], key, k)
  }

  /** Exactly the matching elements are removed. */
  lemma {:induction false} FilterOutLength<T, K>(s: seq<T>, key: T -> K, k: K)
    ensures |FilterOut(s, key, k)| == |s| - CountKey(s, key, k)
  {
    if s != [] {
      FilterOutLength(s[1..], key, k);
    }
  }
}
