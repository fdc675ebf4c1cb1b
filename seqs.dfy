/** Generic sequence helpers: first-occurrence search and key filtering. */
module Seqs {

  /** Position of the first occurrence of `x` in `s`, or -1. */
  function IndexOf<T(==)>(s: seq<T>, x: T): (i: int)
    ensures -1 <= i < |s|
    ensures 0 <= i ==> s[i] == x && x !in s[..i]
    ensures i < 0 <==> x !in s
  {
    if s == [] then -1
    else if s[0] == x then 0
    else
      var j := IndexOf(s[1..], x);
      assert j >= 0 ==> s[..j + 1] == [s[0]] + s[1..][..j];
      assert s == [s[0]] + s[1..];
      if j < 0 then -1 else j + 1
  }

  lemma IndexOfAppend<T>(s: seq<T>, y: T, x: T)
    ensures IndexOf(s + [y], x) == if x in s then IndexOf(s, x) else if x == y then |s| else -1
  {
    var s' := s + [y];
    var i := IndexOf(s', x);
    assert forall j :: 0 <= j < i ==> s'[..i][j] == s'[j];
    if x in s {
      var k := IndexOf(s, x);
      assert forall j :: 0 <= j < k ==> s[..k][j] == s[j];
      assert s'[k] == x;
    } else if x == y {
      assert s'[|s|] == x;
    }
  }

  /** The elements of `s` whose key is `c`, in their order in `s`. */
  function KeyFilter<T>(s: seq<T>, key: T -> real, c: real): (r: seq<T>)
    ensures |r| <= |s|
  {
    if s == [] then [] else (if key(s[0]) == c then [s[0]] else []) + KeyFilter(s[1..], key, c)
  }

  lemma {:induction false} KeyFilterAppend<T>(a: seq<T>, b: seq<T>, key: T -> real, c: real)
    ensures KeyFilter(a + b, key, c) == KeyFilter(a, key, c) + KeyFilter(b, key, c)
  {
    if a != [] {
      assert (a + b)[1..] == a[1..] + b;
      KeyFilterAppend(a[1..], b, key, c);
    } else {
      assert a + b == b;
    }
  }

  lemma {:induction false} KeyFilterNone<T>(s: seq<T>, key: T -> real, c: real)
    requires forall i :: 0 <= i < |s| ==> key(s[i]) != c
    ensures KeyFilter(s, key, c) == []
  {
    if s != [] {
      KeyFilterNone(s[1..], key, c);
    }
  }

  /** The first two elements, as a sequence. */
  lemma TakeTwo<T>(s: seq<T>)
    requires |s| >= 2
    ensures s[..2] == [s[0], s[1]]
  {
  }

  /** A property of every element carries over to any permutation. */
  lemma PermutationKeeps<T>(a: seq<T>, b: seq<T>, P: T -> bool)
    requires multiset(a) == multiset(b)
    requires forall i :: 0 <= i < |b| ==> P(b[i])
    ensures forall i :: 0 <= i < |a| ==> P(a[i])
  {
    forall i | 0 <= i < |a|
      ensures P(a[i])
    {
      assert a[i] in multiset(b);
      var k :| 0 <= k < |b| && b[k] == a[i];
    }
  }

  ghost predicate Distinct<T>(s: seq<T>)
  {
    forall i, j :: 0 <= i < j < |s| ==> s[i] != s[j]
  }

  /** Python's `max(s, key=key)`: the position of the first element with the largest key
      (a later element replaces the current one only when its key is strictly larger). */
  function FirstMax<T>(s: seq<T>, key: T -> real): (i: int)
    requires s != []
    ensures 0 <= i < |s|
    ensures forall j :: 0 <= j < |s| ==> key(s[j]) <= key(s[i])
    ensures forall j :: 0 <= j < i ==> key(s[j]) < key(s[i])
  {
    if |s| == 1 then 0
    else
      var p := s[..|s| - 1];
      var i := FirstMax(p, key);
      assert forall j :: 0 <= j < |p| ==> p[j] == s[j];
      if key(s[|s| - 1]) > key(s[i]) then |s| - 1 else i
  }
}
