/**
 This module holds the string vocabulary the prompt composer is built from:
 where a piece of text occurs inside a larger one, and Python's `str.join`
 of a list of strings with a fixed separator, together with an independent
 positional characterisation of what a join must look like.
 */
module Text {

  /** `sub` appears in `s` starting at index `at`. */
  predicate Occurs(sub: string, s: string, at: int) {
    0 <= at && at + |sub| <= |s| && s[at..at + |sub|] == sub
  }

  /** Every string occurs in itself at index 0. */
  lemma OccursSelf(s: string)
    ensures Occurs(s, s, 0)
  {
    assert s[0..|s|] == s;
  }

  /** An occurrence survives putting text in front, shifted by that text's length. */
  lemma OccursAfter(sub: string, s: string, at: int, pre: string)
    requires Occurs(sub, s, at)
    ensures Occurs(sub, pre + s, |pre| + at)
  {
    assert (pre + s)[|pre| + at..|pre| + at + |sub|] == s[at..at + |sub|];
  }

  /** An occurrence survives putting text behind, at the same index. */
  lemma OccursBefore(sub: string, s: string, at: int, post: string)
    requires Occurs(sub, s, at)
    ensures Occurs(sub, s + post, at)
  {
    assert (s + post)[at..at + |sub|] == s[at..at + |sub|];
  }

  /** The middle part of a three-way concatenation sits right after the first part. */
  lemma OccursInMiddle(a: string, b: string, c: string)
    ensures Occurs(b, a + b + c, |a|)
  {
    OccursSelf(b);
    OccursAfter(b, b, 0, a);
    OccursBefore(b, a + b, |a|, c);
  }

  /** An occurrence survives wrapping the text in a prefix and a suffix. */
  lemma OccursWrapped(sub: string, s: string, at: int, pre: string, post: string)
    requires Occurs(sub, s, at)
    ensures Occurs(sub, pre + s + post, |pre| + at)
  {
    OccursAfter(sub, s, at, pre);
    OccursBefore(sub, pre + s, |pre| + at, post);
  }

  /** Two occurrences side by side are an occurrence of their concatenation. */
  lemma OccursAdjacent(a: string, b: string, s: string, at: int)
    requires Occurs(a, s, at)
    requires Occurs(b, s, at + |a|)
    ensures Occurs(a + b, s, at)
  {
    assert s[at..at + |a| + |b|] == s[at..at + |a|] + s[at + |a|..at + |a| + |b|];
  }

  /** The three parts of a three-way concatenation can be cut back out of it. */
  lemma CutThree(a: string, b: string, c: string)
    ensures (a + b + c)[..|a|] == a
    ensures (a + b + c)[|a|..|a| + |b|] == b
    ensures (a + b + c)[|a| + |b|..] == c
  {
    var s := a + b + c;
    assert s[..|a|] == a;
    assert s[|a|..|a| + |b|] == b;
    assert s[|a| + |b|..] == c;
  }

  /** Any string is the concatenation of its pieces cut at two indices. */
  lemma SplitThree(s: string, i: nat, j: nat)
    requires i <= j <= |s|
    ensures s == s[..i] + s[i..j] + s[j..]
  {
  }

  /** Regrouping the last three parts of a five-way concatenation. */
  lemma Regroup(a: string, b: string, c: string, d: string, e: string)
    ensures a + b + c + d + e == a + b + (c + d + e)
  {
  }

  /** An occurrence past the first `k` characters is an occurrence in the rest. */
  lemma OccursInSuffix(sub: string, s: string, k: nat, at: nat)
    requires k <= |s|
    requires Occurs(sub, s, k + at)
    ensures Occurs(sub, s[k..], at)
  {
    assert s[k..][at..at + |sub|] == s[k + at..k + at + |sub|];
  }

  /** Total number of characters in a list of strings. */
  function SumLen(xs: seq<string>): nat {
    if |xs| == 0 then 0 else |xs[0]| + SumLen(xs[1..])
  }

  lemma {:induction false} SumLenSnoc(xs: seq<string>, x: string)
    ensures SumLen(xs + [x]) == SumLen(xs) + |x|
  {
    if |xs| == 0 {
      assert xs + [x] == [x];
      assert [x][1..] == [];
    } else {
      assert (xs + [x])[1..] == xs[1..] + [x];
      SumLenSnoc(xs[1..], x);
    }
  }

  /**
   `sep.join(xs)` as Python computes it: the strings of `xs` in the order
   given, with one copy of `sep` between each neighbouring pair and none
   at either end.
   */
  function Join(sep: string, xs: seq<string>): (r: string)
    ensures |xs| >= 1 ==> |r| == SumLen(xs) + (|xs| - 1) * |sep|
  {
    if |xs| == 0 then []
    else if |xs| == 1 then xs[0]
    else xs[0] + sep + Join(sep, xs[1..])
  }

  /** Index at which the `i`-th string starts in a join of `xs` with `sep`. */
  function Start(sep: string, xs: seq<string>, i: nat): nat
    requires i <= |xs|
  {
    SumLen(xs[..i]) + i * |sep|
  }

  /**
   Positional description of a join, independent of how `Join` builds it:
   the empty list gives the empty string; otherwise the result has room for
   exactly the strings and |xs| - 1 separators, each string sits at its
   `Start`, and a separator follows every string but the last.
   */
  ghost predicate IsJoin(sep: string, xs: seq<string>, s: string) {
    && (|xs| == 0 ==> s == [])
    && (|xs| > 0 ==> |s| == SumLen(xs) + (|xs| - 1) * |sep|)
    && (forall i :: 0 <= i < |xs| ==> Occurs(xs[i], s, Start(sep, xs, i)))
    && (forall i :: 0 <= i < |xs| - 1 ==> Occurs(sep, s, Start(sep, xs, i) + |xs[i]|))
  }

  /** Each string starts one string and one separator after its predecessor. */
  lemma StartStep(sep: string, xs: seq<string>, i: nat)
    requires i < |xs|
    ensures Start(sep, xs, i + 1) == Start(sep, xs, i) + |xs[i]| + |sep|
  {
    assert xs[..i + 1] == xs[..i] + [xs[i]];
    SumLenSnoc(xs[..i], xs[i]);
  }

  /** Dropping the first string shifts every later start by that string and one separator. */
  lemma StartTail(sep: string, xs: seq<string>, i: nat)
    requires 1 <= i <= |xs|
    ensures Start(sep, xs, i) == |xs[0]| + |sep| + Start(sep, xs[1..], i - 1)
  {
    assert xs[..i][1..] == xs[1..][..i - 1];
  }

  /** The `i`-th string of a join sits at its `Start`. */
  lemma {:induction false} JoinPlacesString(sep: string, xs: seq<string>, i: nat)
    requires i < |xs|
    ensures Occurs(xs[i], Join(sep, xs), Start(sep, xs, i))
  {
    var s := Join(sep, xs);
    if |xs| == 1 {
      assert Start(sep, xs, i) == 0;
      assert s[0..|xs[0]|] == xs[0];
    } else if i == 0 {
      assert Start(sep, xs, i) == 0;
      OccursInMiddle([], xs[0], sep + Join(sep, xs[1..]));
      assert [] + xs[0] + (sep + Join(sep, xs[1..])) == s;
    } else {
      var rest := xs[1..];
      StartTail(sep, xs, i);
      JoinPlacesString(sep, rest, i - 1);
      OccursWrapped(rest[i - 1], Join(sep, rest), Start(sep, rest, i - 1), xs[0] + sep, []);
      assert xs[0] + sep + Join(sep, rest) + [] == s;
    }
  }

  /** A separator follows the `i`-th string of a join whenever a later string exists. */
  lemma {:induction false} JoinPlacesSeparator(sep: string, xs: seq<string>, i: nat)
    requires i + 1 < |xs|
    ensures Occurs(sep, Join(sep, xs), Start(sep, xs, i) + |xs[i]|)
  {
    var s := Join(sep, xs);
    var rest := xs[1..];
    if i == 0 {
      assert Start(sep, xs, i) == 0;
      OccursInMiddle(xs[0], sep, Join(sep, rest));
    } else {
      StartTail(sep, xs, i);
      JoinPlacesSeparator(sep, rest, i - 1);
      OccursWrapped(sep, Join(sep, rest), Start(sep, rest, i - 1) + |rest[i - 1]|, xs[0] + sep, []);
      assert xs[0] + sep + Join(sep, rest) + [] == s;
    }
  }

  /** `Join` meets the positional description. */
  lemma JoinIsJoin(sep: string, xs: seq<string>)
    ensures IsJoin(sep, xs, Join(sep, xs))
  {
    forall i | 0 <= i < |xs|
      ensures Occurs(xs[i], Join(sep, xs), Start(sep, xs, i))
    {
      JoinPlacesString(sep, xs, i);
    }
    forall i | 0 <= i < |xs| - 1
      ensures Occurs(sep, Join(sep, xs), Start(sep, xs, i) + |xs[i]|)
    {
      JoinPlacesSeparator(sep, xs, i);
    }
  }

  /** A string placed after position `k` of a join is placed in what follows `k`. */
  lemma PlacedInTail(sep: string, xs: seq<string>, s: string, x: string, i: nat, extra: nat)
    requires 1 <= i <= |xs|
    requires |xs[0]| + |sep| <= |s|
    requires Occurs(x, s, Start(sep, xs, i) + extra)
    ensures Occurs(x, s[|xs[0]| + |sep|..], Start(sep, xs[1..], i - 1) + extra)
  {
    StartTail(sep, xs, i);
    OccursInSuffix(x, s, |xs[0]| + |sep|, Start(sep, xs[1..], i - 1) + extra);
  }

  /** The strings after the first keep their places in what follows the first separator. */
  lemma IsJoinTailStrings(sep: string, xs: seq<string>, s: string)
    requires |xs| >= 2
    requires IsJoin(sep, xs, s)
    ensures |xs[0]| + |sep| <= |s|
    ensures forall i :: 0 <= i < |xs| - 1 ==>
      Occurs(xs[1..][i], s[|xs[0]| + |sep|..], Start(sep, xs[1..], i))
  {
    StartStep(sep, xs, 0);
    assert Occurs(xs[1], s, Start(sep, xs, 1));
    forall i | 0 <= i < |xs| - 1
      ensures Occurs(xs[1..][i], s[|xs[0]| + |sep|..], Start(sep, xs[1..], i))
    {
      assert Occurs(xs[i + 1], s, Start(sep, xs, i + 1) + 0);
      PlacedInTail(sep, xs, s, xs[i + 1], i + 1, 0);
    }
  }

  /** The separators after the first keep their places in what follows the first separator. */
  lemma IsJoinTailSeparators(sep: string, xs: seq<string>, s: string)
    requires |xs| >= 2
    requires IsJoin(sep, xs, s)
    ensures |xs[0]| + |sep| <= |s|
    ensures forall i :: 0 <= i < |xs| - 2 ==>
      Occurs(sep, s[|xs[0]| + |sep|..], Start(sep, xs[1..], i) + |xs[1..][i]|)
  {
    StartStep(sep, xs, 0);
    assert Occurs(xs[1], s, Start(sep, xs, 1));
    forall i | 0 <= i < |xs| - 2
      ensures Occurs(sep, s[|xs[0]| + |sep|..], Start(sep, xs[1..], i) + |xs[1..][i]|)
    {
      assert Occurs(sep, s, Start(sep, xs, i + 1) + |xs[i + 1]|);
      PlacedInTail(sep, xs, s, sep, i + 1, |xs[i + 1]|);
    }
  }

  /**
   A join of two or more strings begins with the first string and a
   separator, and what follows is a join of the remaining strings.
   */
  lemma IsJoinTail(sep: string, xs: seq<string>, s: string)
    requires |xs| >= 2
    requires IsJoin(sep, xs, s)
    ensures |xs[0]| + |sep| <= |s|
    ensures s[..|xs[0]|] == xs[0]
    ensures s[|xs[0]|..|xs[0]| + |sep|] == sep
    ensures IsJoin(sep, xs[1..], s[|xs[0]| + |sep|..])
  {
    var rest := xs[1..];
    assert Start(sep, xs, 0) == 0;
    assert Occurs(xs[0], s, Start(sep, xs, 0));
    assert Occurs(sep, s, Start(sep, xs, 0) + |xs[0]|);
    assert SumLen(xs) == |xs[0]| + SumLen(rest);
    assert (|xs| - 1) * |sep| == (|rest| - 1) * |sep| + |sep|;
    IsJoinTailStrings(sep, xs, s);
    IsJoinTailSeparators(sep, xs, s);
  }

  /** A join of a single string is that string. */
  lemma IsJoinSingle(sep: string, xs: seq<string>, s: string)
    requires |xs| == 1
    requires IsJoin(sep, xs, s)
    ensures s == xs[0]
  {
    assert Start(sep, xs, 0) == 0;
    assert Occurs(xs[0], s, Start(sep, xs, 0));
    assert xs[1..] == [];
    assert s == s[0..|xs[0]|];
  }

  /** Only `Join` meets the positional description: it pins the join down completely. */
  lemma {:induction false} IsJoinUnique(sep: string, xs: seq<string>, s: string)
    requires IsJoin(sep, xs, s)
    ensures s == Join(sep, xs)
  {
    if |xs| == 0 {
    } else if |xs| == 1 {
      IsJoinSingle(sep, xs, s);
    } else {
      var k := |xs[0]| + |sep|;
      IsJoinTail(sep, xs, s);
      IsJoinUnique(sep, xs[1..], s[k..]);
      SplitThree(s, |xs[0]|, k);
    }
  }

  /** Starts grow with the index. */
  lemma {:induction false} StartMonotone(sep: string, xs: seq<string>, i: nat, j: nat)
    requires i <= j <= |xs|
    ensures Start(sep, xs, i) <= Start(sep, xs, j)
    decreases j - i
  {
    if i < j {
      StartStep(sep, xs, i);
      StartMonotone(sep, xs, i + 1, j);
    }
  }

  /**
   Joining keeps the order received: an earlier string ends, and is followed
   by a separator, before any later string begins.
   */
  lemma JoinKeepsOrder(sep: string, xs: seq<string>, i: nat, j: nat)
    requires i < j < |xs|
    ensures Occurs(xs[i], Join(sep, xs), Start(sep, xs, i))
    ensures Occurs(xs[j], Join(sep, xs), Start(sep, xs, j))
    ensures Occurs(sep, Join(sep, xs), Start(sep, xs, i) + |xs[i]|)
    ensures Start(sep, xs, i) + |xs[i]| + |sep| <= Start(sep, xs, j)
  {
    JoinIsJoin(sep, xs);
    StartStep(sep, xs, i);
    StartMonotone(sep, xs, i + 1, j);
  }

  /** The edge cases of a join: nothing gives the empty string, one string gives itself. */
  lemma JoinOfFew(sep: string, x: string)
    ensures Join(sep, []) == []
    ensures Join(sep, [x]) == x
  {
  }
}
