/** Sequence operations the stores are built from: the array primitives of
    JavaScript (`findIndex`, `splice(i, 1)`, `filter`) and the insertion-ordered
    de-duplication that `Array.from(new Set(...))` performs. */
module Seqs {

  /** No element occurs twice. */
  predicate NoDup<T(==)>(s: seq<T>) {
    forall i, j :: 0 <= i < j < |s| ==> s[i] != s[j]
  }

  /** `r` is obtained from `s` by dropping elements and keeping the order of the rest. */
  ghost predicate IsSubsequence<T>(r: seq<T>, s: seq<T>)
    decreases |s|
  {
    if |r| == 0 then true
    else if |s| == 0 then false
    else (r[0] == s[0] && IsSubsequence(r[1..], s[1..])) || IsSubsequence(r, s[1..])
  }

  /** Position of the first occurrence of `x`, or -1 when there is none. */
  function IndexOf<T(==)>(s: seq<T>, x: T): (r: int)
    ensures -1 <= r < |s|
    ensures r == -1 <==> x !in s
    ensures 0 <= r ==> s[r] == x && x !in s[..r]
  {
    if |s| == 0 then -1
    else if s[0] == x then 0
    else
      var k := IndexOf(s[1..], x);
      if k == -1 then -1
      else
        assert s[..k + 1] == [s[0]] + s[1..][..k];
        k + 1
  }

  /** Appending an element does not move the first occurrence of anything
      already present, and an absent element is first found at the end. */
  lemma {:induction false} IndexOfAppend<T>(s: seq<T>, x: T, y: T)
    ensures y in s ==> IndexOf(s + [x], y) == IndexOf(s, y)
    ensures y !in s && y == x ==> IndexOf(s + [x], y) == |s|
  {
    if |s| > 0 {
      assert (s + [x])[1..] == s[1..] + [x];
      if s[0] != y {
        IndexOfAppend(s[1..], x, y);
      }
    }
  }

  /** `f` applied at every position (`Array.prototype.map`). */
  function Map<T, U>(s: seq<T>, f: T -> U): (r: seq<U>)
    ensures |r| == |s|
    ensures forall i :: 0 <= i < |s| ==> r[i] == f(s[i])
  {
    seq(|s|, i requires 0 <= i < |s| => f(s[i]))
  }

  /** Replacing an element by one with the same image leaves the images as they were. */
  lemma MapUpdate<T, U>(s: seq<T>, i: nat, x: T, f: T -> U)
    requires i < |s| && f(x) == f(s[i])
    ensures Map(s[i := x], f) == Map(s, f)
  {
    assert forall k :: 0 <= k < |s| ==> Map(s[i := x], f)[k] == Map(s, f)[k];
  }

  /** Appending an element appends its image. */
  lemma MapAppend<T, U>(s: seq<T>, x: T, f: T -> U)
    ensures Map(s + [x], f) == Map(s, f) + [f(x)]
  {
    assert forall k :: 0 <= k < |s| + 1 ==> Map(s + [x], f)[k] == (Map(s, f) + [f(x)])[k];
  }

  /** The image of a non-empty sequence is the image of its head followed by
      the image of its tail. */
  lemma MapCons<T, U>(s: seq<T>, f: T -> U)
    requires |s| > 0
    ensures Map(s, f) == [f(s[0])] + Map(s[1..], f)
  {
    assert forall k :: 0 <= k < |s| ==> Map(s, f)[k] == ([f(s[0])] + Map(s[1..], f))[k];
  }

  /** Removal of the element at `i`, closing the gap (`splice(i, 1)`). */
  function RemoveAt<T>(s: seq<T>, i: nat): (r: seq<T>)
    requires i < |s|
    ensures |r| == |s| - 1
    ensures forall j :: 0 <= j < i ==> r[j] == s[j]
    ensures forall j :: i <= j < |r| ==> r[j] == s[j + 1]
    ensures multiset(r) + multiset{s[i]} == multiset(s)
  {
    assert s == s[..i] + [s[i]] + s[i + 1..];
    s[..i] + s[i + 1..]
  }

  /** Removing an element keeps a duplicate-free sequence duplicate-free. */
  lemma NoDupRemoveAt<T>(s: seq<T>, i: nat)
    requires i < |s| && NoDup(s)
    ensures NoDup(RemoveAt(s, i))
  {
    var r := RemoveAt(s, i);
    forall a, b | 0 <= a < b < |r|
      ensures r[a] != r[b]
    {
      var a', b' := if a < i then a else a + 1, if b < i then b else b + 1;
      assert r[a] == s[a'] && r[b] == s[b'];
    }
  }

  /** Removing an element removes its image at the same place. */
  lemma MapRemoveAt<T, U>(s: seq<T>, i: nat, f: T -> U)
    requires i < |s|
    ensures Map(RemoveAt(s, i), f) == RemoveAt(Map(s, f), i)
  {
    var r := RemoveAt(s, i);
    assert forall k :: 0 <= k < |r| ==> Map(r, f)[k] == RemoveAt(Map(s, f), i)[k];
  }

  /** Position of the first occurrence in a sequence with a known head. */
  lemma IndexOfCons<T>(a: T, s: seq<T>, x: T)
    requires x in s || x == a
    ensures IndexOf([a] + s, x) == if a == x then 0 else 1 + IndexOf(s, x)
  {
    assert ([a] + s)[1..] == s;
  }

  /** The elements of `s` that satisfy `p`, in their original order. */
  function Filter<T(==,!new)>(s: seq<T>, p: T -> bool): (r: seq<T>)
    ensures |r| <= |s|
    ensures IsSubsequence(r, s)
    ensures forall x :: multiset(r)[x] == if p(x) then multiset(s)[x] else 0
    ensures forall x :: x in r <==> x in s && p(x)
  {
    if |s| == 0 then []
    else
      assert s == [s[0]] + s[1..];
      var rest := Filter(s[1..], p);
      if p(s[0]) then
        assert ([s[0]] + rest)[1..] == rest;
        [s[0]] + rest
      else rest
  }

  /** Filtering with a predicate every element satisfies keeps everything. */
  lemma {:induction false} FilterKeepsAll<T(!new)>(s: seq<T>, p: T -> bool)
    requires forall i :: 0 <= i < |s| ==> p(s[i])
    ensures Filter(s, p) == s
  {
    if |s| > 0 {
      FilterKeepsAll(s[1..], p);
    }
  }

  /** Filtering depends only on the predicate's values on the elements. */
  lemma {:induction false} FilterAgrees<T(!new)>(s: seq<T>, p: T -> bool, q: T -> bool)
    requires forall i :: 0 <= i < |s| ==> p(s[i]) == q(s[i])
    ensures Filter(s, p) == Filter(s, q)
  {
    if |s| > 0 {
      FilterAgrees(s[1..], p, q);
    }
  }

  /** Each distinct element of `s` once, in the order of first occurrence. */
  function Dedup<T(==,!new)>(s: seq<T>): (r: seq<T>)
    ensures NoDup(r)
    ensures forall x :: x in r <==> x in s
    ensures forall i, j :: 0 <= i < j < |r| ==> IndexOf(s, r[i]) < IndexOf(s, r[j])
    decreases |s|
  {
    if |s| == 0 then []
    else
      var front, x := s[..|s| - 1], s[|s| - 1];
      assert s == front + [x];
      var d := Dedup(front);
      DedupStep(front, x, d);
      if x in d then d else d + [x]
  }

  /** The inductive step of `Dedup`: first occurrences in `front` stay put when
      `x` is appended, and a new `x` comes after all of them. */
  lemma DedupStep<T>(front: seq<T>, x: T, d: seq<T>)
    requires forall y :: y in d <==> y in front
    requires forall i, j :: 0 <= i < j < |d| ==> IndexOf(front, d[i]) < IndexOf(front, d[j])
    ensures forall i :: 0 <= i < |d| ==> IndexOf(front + [x], d[i]) == IndexOf(front, d[i])
    ensures x !in d ==> IndexOf(front + [x], x) == |front|
  {
    forall i | 0 <= i < |d|
      ensures IndexOf(front + [x], d[i]) == IndexOf(front, d[i])
    {
      IndexOfAppend(front, x, d[i]);
    }
    IndexOfAppend(front, x, x);
  }
}
