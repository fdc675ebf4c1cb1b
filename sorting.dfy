/** `list.sort(key=..., reverse=True)`: a stable sort into descending key order. Elements
    with equal keys keep their original relative order. */
module Sorting {
  import opened Seqs

  predicate SortedDesc<T>(s: seq<T>, key: T -> real)
  {
    forall i, j :: 0 <= i < j < |s| ==> key(s[i]) >= key(s[j])
  }

  /** `x` placed after every element whose key is at least its own. */
  function Insert<T>(s: seq<T>, x: T, key: T -> real): seq<T>
  {
    if s == [] then [x]
    else if key(s[0]) >= key(x) then [s[0]] + Insert(s[1..], x, key)
    else [x] + s
  }

  function SortDesc<T>(s: seq<T>, key: T -> real): seq<T>
  {
    if s == [] then [] else Insert(SortDesc(s[..|s| - 1], key), s[|s| - 1], key)
  }

  lemma {:induction false} InsertContents<T>(s: seq<T>, x: T, key: T -> real)
    ensures multiset(Insert(s, x, key)) == multiset(s) + multiset{x}
    ensures |Insert(s, x, key)| == |s| + 1
  {
    if s != [] && key(s[0]) >= key(x) {
      InsertContents(s[1..], x, key);
      assert s == [s[0]] + s[1..];
    }
  }

  predicate AllAtMost<T>(s: seq<T>, key: T -> real, c: real)
  {
    forall i :: 0 <= i < |s| ==> key(s[i]) <= c
  }

  /** Inserting an element no larger than `c` among elements no larger than `c`. */
  lemma {:induction false} InsertAtMost<T>(s: seq<T>, x: T, key: T -> real, c: real)
    requires AllAtMost(s, key, c) && key(x) <= c
    ensures AllAtMost(Insert(s, x, key), key, c)
  {
    if s != [] && key(s[0]) >= key(x) {
      InsertAtMost(s[1..], x, key, c);
      var r := Insert(s, x, key);
      forall i | 0 <= i < |r|
        ensures key(r[i]) <= c
      {
        if i > 0 { assert r[i] == Insert(s[1..], x, key)[i - 1]; }
      }
    } else if s != [] {
      var r := Insert(s, x, key);
      forall i | 0 <= i < |r|
        ensures key(r[i]) <= c
      {
        if i > 0 { assert r[i] == s[i - 1]; }
      }
    }
  }

  /** A head no smaller than every element of a sorted tail gives a sorted sequence. */
  lemma ConsSorted<T>(h: T, rest: seq<T>, key: T -> real)
    requires SortedDesc(rest, key) && AllAtMost(rest, key, key(h))
    ensures SortedDesc([h] + rest, key)
  {
    var r := [h] + rest;
    forall i, j | 0 <= i < j < |r|
      ensures key(r[i]) >= key(r[j])
    {
      assert r[j] == rest[j - 1];
      if i > 0 { assert r[i] == rest[i - 1]; }
    }
  }

  lemma {:induction false} InsertSorted<T>(s: seq<T>, x: T, key: T -> real)
    requires SortedDesc(s, key)
    ensures SortedDesc(Insert(s, x, key), key)
  {
    if s == [] {
    } else if key(s[0]) >= key(x) {
      InsertSorted(s[1..], x, key);
      assert AllAtMost(s[1..], key, key(s[0])) by {
        forall i | 0 <= i < |s[1..]|
          ensures key(s[1..][i]) <= key(s[0])
        {
          assert s[1..][i] == s[i + 1];
        }
      }
      InsertAtMost(s[1..], x, key, key(s[0]));
      ConsSorted(s[0], Insert(s[1..], x, key), key);
    } else {
      assert AllAtMost(s, key, key(x)) by {
        forall i | 0 <= i < |s|
          ensures key(s[i]) <= key(x)
        {
          assert key(s[i]) <= key(s[0]);
        }
      }
      ConsSorted(x, s, key);
    }
  }

  /** The sort gives a descending permutation of its input. */
  lemma {:induction false} SortDescCorrect<T>(s: seq<T>, key: T -> real)
    ensures SortedDesc(SortDesc(s, key), key)
    ensures multiset(SortDesc(s, key)) == multiset(s)
    ensures |SortDesc(s, key)| == |s|
  {
    if s != [] {
      var p := s[..|s| - 1];
      SortDescCorrect(p, key);
      InsertSorted(SortDesc(p, key), s[|s| - 1], key);
      InsertContents(SortDesc(p, key), s[|s| - 1], key);
      assert s == p + [s[|s| - 1]];
    }
  }

  lemma KeyFilterCons<T>(h: T, t: seq<T>, key: T -> real, c: real)
    ensures KeyFilter([h] + t, key, c) == (if key(h) == c then [h] else []) + KeyFilter(t, key, c)
  {
    assert ([h] + t)[1..] == t;
  }

  function Matching<T>(x: T, key: T -> real, c: real): seq<T>
  {
    if key(x) == c then [x] else []
  }

  lemma SortedTail<T>(s: seq<T>, key: T -> real)
    requires s != [] && SortedDesc(s, key)
    ensures SortedDesc(s[1..], key)
  {
    forall i, j | 0 <= i < j < |s[1..]|
      ensures key(s[1..][i]) >= key(s[1..][j])
    {
      assert s[1..][i] == s[i + 1] && s[1..][j] == s[j + 1];
    }
  }

  /** Insertion behind the head: the head's match comes first, as before. */
  lemma InsertStableBehind<T>(s: seq<T>, x: T, key: T -> real, c: real)
    requires s != [] && key(s[0]) >= key(x)
    requires KeyFilter(Insert(s[1..], x, key), key, c) == KeyFilter(s[1..], key, c) + Matching(x, key, c)
    ensures KeyFilter(Insert(s, x, key), key, c) == KeyFilter(s, key, c) + Matching(x, key, c)
  {
    var rest := Insert(s[1..], x, key);
    assert Insert(s, x, key) == [s[0]] + rest;
    KeyFilterCons(s[0], rest, key, c);
    var hs := Matching(s[0], key, c);
    var b := KeyFilter(s[1..], key, c);
    assert KeyFilter(s, key, c) == hs + b;
    assert hs + (b + Matching(x, key, c)) == (hs + b) + Matching(x, key, c);
  }

  /** Insertion at the front: every element after `x` has a smaller key, so `x` is the
      only element with its key. */
  lemma InsertStableFront<T>(s: seq<T>, x: T, key: T -> real, c: real)
    requires SortedDesc(s, key) && s != [] && key(s[0]) < key(x)
    ensures KeyFilter(Insert(s, x, key), key, c) == KeyFilter(s, key, c) + Matching(x, key, c)
  {
    assert Insert(s, x, key) == [x] + s;
    KeyFilterCons(x, s, key, c);
    if key(x) == c {
      forall i | 0 <= i < |s|
        ensures key(s[i]) != c
      {
        assert key(s[i]) <= key(s[0]);
      }
      KeyFilterNone(s, key, c);
      assert [x] + [] == [] + [x];
    } else {
      assert [] + KeyFilter(s, key, c) == KeyFilter(s, key, c) + [];
    }
  }

  lemma {:induction false} InsertStable<T>(s: seq<T>, x: T, key: T -> real, c: real)
    requires SortedDesc(s, key)
    ensures KeyFilter(Insert(s, x, key), key, c) == KeyFilter(s, key, c) + Matching(x, key, c)
  {
    if s == [] {
      KeyFilterCons(x, [], key, c);
      assert [x] + [] == [x];
    } else if key(s[0]) >= key(x) {
      SortedTail(s, key);
      InsertStable(s[1..], x, key, c);
      InsertStableBehind(s, x, key, c);
    } else {
      InsertStableFront(s, x, key, c);
    }
  }

  /** Stability: the elements sharing any one key appear in the same order before and
      after sorting. */
  lemma {:induction false} SortDescStable<T>(s: seq<T>, key: T -> real, c: real)
    ensures KeyFilter(SortDesc(s, key), key, c) == KeyFilter(s, key, c)
  {
    if s != [] {
      var p := s[..|s| - 1];
      var x := s[|s| - 1];
      SortDescStable(p, key, c);
      SortDescCorrect(p, key);
      InsertStable(SortDesc(p, key), x, key, c);
      assert s == p + [x];
      KeyFilterAppend(p, [x], key, c);
      assert [x][1..] == [];
    }
  }
}
