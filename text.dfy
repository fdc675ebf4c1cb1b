/** String helpers used by the props analyzer: Python's `str.split()` with no arguments,
    `str.lower()`, `in` on strings and `str.startswith`. */
module Text {

  /** The characters Python's `str.split()` treats as separators. */
  predicate IsSpace(c: char)
  {
    var n := c as int;
    n == 0x20 || 0x09 <= n <= 0x0D || 0x1C <= n <= 0x1F || n == 0x85 || n == 0xA0 || n == 0x1680
    || 0x2000 <= n <= 0x200A || n == 0x2028 || n == 0x2029 || n == 0x202F || n == 0x205F || n == 0x3000
  }

  predicate NoSpace(s: string)
  {
    forall i :: 0 <= i < |s| ==> !IsSpace(s[i])
  }

  /** `s` without its leading separators. */
  function TrimLeft(s: string): (r: string)
    ensures |r| <= |s| && r == s[|s| - |r|..]
    ensures r != [] ==> !IsSpace(r[0])
  {
    if s != [] && IsSpace(s[0]) then TrimLeft(s[1..]) else s
  }

  /** The longest prefix of `s` without separators. */
  function Word(s: string): (w: string)
    ensures |w| <= |s| && w == s[..|w|] && NoSpace(w)
    ensures s != [] && !IsSpace(s[0]) ==> w != []
    ensures |w| < |s| ==> IsSpace(s[|w|])
  {
    if s == [] || IsSpace(s[0]) then [] else [s[0]] + Word(s[1..])
  }

  /** `s.split()`: the maximal runs of non-separator characters, in order. */
  function Tokens(s: string): (ts: seq<string>)
    ensures forall i :: 0 <= i < |ts| ==> ts[i] != [] && NoSpace(ts[i])
    decreases |s|
  {
    var t := TrimLeft(s);
    if t == [] then []
    else
      var w := Word(t);
      WordStep(s, t, w);
      var ts := Tokens(t[|w|..]);
      ConsTokens(w, ts);
      [w] + ts
  }

  /** A word taken after the leading separators is a non-empty token, and what follows it is
      shorter than the input. */
  lemma WordStep(s: string, t: string, w: string)
    requires t == TrimLeft(s) && t != [] && w == Word(t)
    ensures w != [] && NoSpace(w) && |w| <= |t| && |t[|w|..]| < |s|
  {
  }

  lemma ConsTokens(w: string, ts: seq<string>)
    requires w != [] && NoSpace(w)
    requires forall i :: 0 <= i < |ts| ==> ts[i] != [] && NoSpace(ts[i])
    ensures forall i :: 0 <= i < |[w] + ts| ==> ([w] + ts)[i] != [] && NoSpace(([w] + ts)[i])
  {
    forall i | 0 <= i < |[w] + ts|
      ensures ([w] + ts)[i] != [] && NoSpace(([w] + ts)[i])
    {
      if i > 0 { assert ([w] + ts)[i] == ts[i - 1]; }
    }
  }

  lemma WordOfJoin(w: string, rest: string)
    requires NoSpace(w) && (rest == [] || IsSpace(rest[0]))
    ensures Word(w + rest) == w
    decreases |w|
  {
    if w != [] {
      assert (w + rest)[1..] == w[1..] + rest;
      WordOfJoin(w[1..], rest);
    } else {
      assert w + rest == rest;
    }
  }

  /** A single word splits into itself. */
  lemma TokensOfWord(w: string)
    requires w != [] && NoSpace(w)
    ensures Tokens(w) == [w]
  {
    assert TrimLeft(w) == w;
    WordOfJoin(w, []);
    assert w + [] == w;
    assert w[|w|..] == [];
  }

  lemma TokensAfterSpace(c: char, s: string)
    requires IsSpace(c)
    ensures Tokens([c] + s) == Tokens(s)
  {
    assert ([c] + s)[1..] == s;
    assert TrimLeft([c] + s) == TrimLeft(s);
  }

  /** Splitting two words joined by a single space gives back the two words. */
  lemma TokensOfPair(w1: string, w2: string)
    requires w1 != [] && w2 != [] && NoSpace(w1) && NoSpace(w2)
    ensures Tokens(w1 + " " + w2) == [w1, w2]
  {
    TokensOfPairHead(w1, w2);
    TokensOfSpacedWord(w2);
  }

  /** The first word of a pair is split off, leaving the space and the second word. */
  lemma TokensOfPairHead(w1: string, w2: string)
    requires w1 != [] && NoSpace(w1)
    ensures Tokens(w1 + " " + w2) == [w1] + Tokens([' '] + w2)
  {
    PairShape(w1, w2);
    TokensStep(w1 + " " + w2, w1, [' '] + w2);
  }

  /** A space followed by one word splits into that word. */
  lemma TokensOfSpacedWord(w: string)
    requires w != [] && NoSpace(w)
    ensures Tokens([' '] + w) == [w]
  {
    TokensAfterSpace(' ', w);
    TokensOfWord(w);
  }

  /** Two words joined by a space start with the first word, followed by the space and the
      second word. */
  lemma PairShape(w1: string, w2: string)
    requires w1 != [] && NoSpace(w1)
    ensures var s := w1 + " " + w2;
      s != [] && TrimLeft(s) == s && Word(s) == w1 && s[|w1|..] == [' '] + w2
  {
    var s := w1 + " " + w2;
    assert s[0] == w1[0];
    assert s == w1 + (" " + w2);
    WordOfJoin(w1, " " + w2);
    assert s[|w1|..] == [' '] + w2;
  }

  /** Splitting a string that starts with the word `w`: that word, then the rest split. */
  lemma TokensStep(s: string, w: string, rest: string)
    requires s != [] && TrimLeft(s) == s && Word(s) == w && s[|w|..] == rest
    ensures Tokens(s) == [w] + Tokens(rest)
  {
  }

  function Lower(c: char): char
  {
    if 'A' <= c <= 'Z' then (c as int + 32) as char else c
  }

  /** `s.lower()` on ASCII letters. */
  function LowerStr(s: string): (r: string)
    ensures |r| == |s| && forall i :: 0 <= i < |s| ==> r[i] == Lower(s[i])
  {
    seq(|s|, i requires 0 <= i < |s| => Lower(s[i]))
  }

  predicate StartsWith(s: string, prefix: string)
  {
    |prefix| <= |s| && s[..|prefix|] == prefix
  }

  predicate OccursAt(s: string, sub: string, i: int)
  {
    0 <= i <= |s| - |sub| && s[i..i + |sub|] == sub
  }

  /** `sub in s`. */
  predicate Contains(s: string, sub: string)
    decreases |s|
  {
    StartsWith(s, sub) || (s != [] && Contains(s[1..], sub))
  }

  /** Substring search agrees with the positional definition. */
  lemma {:induction false} ContainsAt(s: string, sub: string)
    ensures Contains(s, sub) <==> exists i :: OccursAt(s, sub, i)
    decreases |s|
  {
    if StartsWith(s, sub) {
      assert OccursAt(s, sub, 0);
    } else if s == [] {
    } else {
      ContainsAt(s[1..], sub);
      if Contains(s[1..], sub) {
        var i :| OccursAt(s[1..], sub, i);
        assert s[1..][i..i + |sub|] == s[i + 1..i + 1 + |sub|];
        assert OccursAt(s, sub, i + 1);
      }
      if exists i :: OccursAt(s, sub, i) {
        var i :| OccursAt(s, sub, i);
        assert i != 0;
        assert s[1..][i - 1..i - 1 + |sub|] == s[i..i + |sub|];
        assert OccursAt(s[1..], sub, i - 1);
      }
    }
  }
}
