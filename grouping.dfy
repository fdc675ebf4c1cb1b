/** Grouping a list into a dict of lists keyed by a string, the idiom
    `if k not in groups: groups[k] = []; groups[k].append(x)`. Groups keep the order in
    which their keys first appear (Python dicts are insertion-ordered) and members keep
    their order in the input. */
module Grouping {
  import opened Seqs

  datatype Group<T> = Group(key: string, members: seq<T>)

  function GroupKeys<T>(gs: seq<Group<T>>): (ks: seq<string>)
    ensures |ks| == |gs| && forall i :: 0 <= i < |gs| ==> ks[i] == gs[i].key
  {
    seq(|gs|, i requires 0 <= i < |gs| => gs[i].key)
  }

  function AddTo<T>(gs: seq<Group<T>>, k: string, x: T): seq<Group<T>>
  {
    var i := IndexOf(GroupKeys(gs), k);
    if i < 0 then gs + [Group(k, [x])] else gs[i := Group(k, gs[i].members + [x])]
  }

  function GroupBy<T>(s: seq<T>, key: T -> string): seq<Group<T>>
  {
    if s == [] then [] else AddTo(GroupBy(s[..|s| - 1], key), key(s[|s| - 1]), s[|s| - 1])
  }

  /** The elements of `s` whose key is `k`, in order. */
  function Select<T>(s: seq<T>, key: T -> string, k: string): seq<T>
  {
    if s == [] then []
    else Select(s[..|s| - 1], key, k) + (if key(s[|s| - 1]) == k then [s[|s| - 1]] else [])
  }

  /** The loop that fills the dict. */
  method GroupInOrder<T>(s: seq<T>, key: T -> string) returns (gs: seq<Group<T>>)
    ensures gs == GroupBy(s, key)
  {
    gs := [];
    var i := 0;
    while i < |s|
      invariant 0 <= i <= |s|
      invariant gs == GroupBy(s[..i], key)
    {
      assert s[..i + 1][..i] == s[..i];
      var k := key(s[i]);
      var j := IndexOf(GroupKeys(gs), k);
      if j < 0 {
        gs := gs + [Group(k, [s[i]])];
      } else {
        gs := gs[j := Group(k, gs[j].members + [s[i]])];
      }
      i := i + 1;
    }
    assert s[..i] == s;
  }

  /** What the dict holds: one group per distinct key, each non-empty and holding exactly
      the elements with that key, in input order; keys that no element has are absent. */
  ghost predicate Faithful<T>(gs: seq<Group<T>>, s: seq<T>, key: T -> string)
  {
    && Distinct(GroupKeys(gs))
    && (forall i :: 0 <= i < |gs| ==> gs[i].members == Select(s, key, gs[i].key) && gs[i].members != [])
    && (forall k :: k !in GroupKeys(gs) ==> Select(s, key, k) == [])
  }

  /** Every group holds at least one element. */
  lemma GroupsNonEmpty<T>(s: seq<T>, key: T -> string)
    ensures forall i :: 0 <= i < |GroupBy(s, key)| ==> GroupBy(s, key)[i].members != []
  {
    GroupByFaithful(s, key);
  }

  lemma {:induction false} GroupByFaithful<T>(s: seq<T>, key: T -> string)
    ensures Faithful(GroupBy(s, key), s, key)
  {
    if s != [] {
      var p := s[..|s| - 1];
      var x := s[|s| - 1];
      var g := GroupBy(p, key);
      GroupByFaithful(p, key);
      var k := key(x);
      var g' := AddTo(g, k, x);
      var j := IndexOf(GroupKeys(g), k);
      if j < 0 {
        assert GroupKeys(g') == GroupKeys(g) + [k];
        forall i | 0 <= i < |g'|
          ensures g'[i].members == Select(s, key, g'[i].key) && g'[i].members != []
        {
          if i < |g| {
            assert GroupKeys(g)[i] == g[i].key;
          }
        }
      } else {
        assert GroupKeys(g') == GroupKeys(g);
        forall i | 0 <= i < |g'|
          ensures g'[i].members == Select(s, key, g'[i].key) && g'[i].members != []
        {
          if i != j {
            assert GroupKeys(g)[i] != GroupKeys(g)[j];
          }
        }
      }
    }
  }

  /** Every element of the input lands in the group of its own key, the `i`-th group. */
  lemma ElementInItsGroup<T>(s: seq<T>, key: T -> string, n: int) returns (i: int)
    requires 0 <= n < |s|
    ensures 0 <= i < |GroupBy(s, key)|
    ensures GroupBy(s, key)[i].key == key(s[n]) && s[n] in GroupBy(s, key)[i].members
  {
    var gs := GroupBy(s, key);
    GroupByFaithful(s, key);
    SelectHas(s, key, n);
    assert key(s[n]) in GroupKeys(gs);
    i := IndexOf(GroupKeys(gs), key(s[n]));
  }

  lemma {:induction false} SelectHas<T>(s: seq<T>, key: T -> string, n: int)
    requires 0 <= n < |s|
    ensures s[n] in Select(s, key, key(s[n]))
  {
    if n < |s| - 1 {
      SelectHas(s[..|s| - 1], key, n);
    }
  }
}
