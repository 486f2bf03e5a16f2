/** Facts about the in-place edits the loops make: overwrite one entry, splice one out. */
module Splices {

  /** A sequence is its prefix, the entry at i and its suffix. */
  lemma Split<T>(s: seq<T>, i: nat)
    requires i < |s|
    ensures s == s[..i] + [s[i]] + s[i + 1..]
  {
  }

  /** The three parts of p + [x] + q are p, x and q again. */
  lemma Parts<T>(p: seq<T>, x: T, q: seq<T>)
    ensures var s := p + [x] + q; s[..|p|] == p && s[|p|] == x && s[|p| + 1..] == q
  {
    var s := p + [x] + q;
    assert s[..|p|] == p;
    assert s[|p| + 1..] == q;
  }

  /** Overwriting the entry between p and q. */
  lemma UpdateMiddle<T>(p: seq<T>, x: T, y: T, q: seq<T>)
    ensures (p + [x] + q)[|p| := y] == p + [y] + q
  {
    var s := (p + [x] + q)[|p| := y];
    assert forall k :: 0 <= k < |s| ==> s[k] == (p + [y] + q)[k];
  }

  /** Splicing out the entry between p and q. */
  lemma RemoveMiddle<T>(p: seq<T>, x: T, q: seq<T>)
    ensures var s := p + [x] + q; s[..|p|] + s[|p| + 1..] == p + q
  {
    Parts(p, x, q);
  }

  /** Cutting s after entry i and appending q keeps the first i + 1 entries and then q. */
  lemma PrefixThen<T>(s: seq<T>, i: nat, q: seq<T>)
    requires i < |s|
    ensures var e := s[..i + 1] + q; e[..i] == s[..i] && e[i] == s[i] && e[i + 1..] == q
  {
    assert s[..i + 1] == s[..i] + [s[i]];
    Parts(s[..i], s[i], q);
  }

  /** Concatenation regroups. */
  lemma Regroup<T>(a: seq<T>, b: seq<T>, c: seq<T>)
    ensures a + b + c == a + (b + c)
  {
  }
}
