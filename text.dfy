/**
 * The two string primitives the core relies on: substring search (JavaScript
 * `includes`) and Python's `str.replace`, which replaces every non-overlapping
 * occurrence scanning from the left.
 */
module Text {

  predicate StartsWith(s: string, p: string) {
    |p| <= |s| && s[..|p|] == p
  }

  /** `s.includes(p)`: `p` occurs somewhere in `s`. */
  predicate Contains(s: string, p: string)
    decreases |s|
  {
    StartsWith(s, p) || (|s| > 0 && Contains(s[1..], p))
  }

  /** `s.replace(pat, rep)` for a non-empty pattern. */
  function ReplaceAll(s: string, pat: string, rep: string): string
    requires |pat| > 0
    decreases |s|
  {
    if |s| < |pat| then s
    else if s[..|pat|] == pat then rep + ReplaceAll(s[|pat|..], pat, rep)
    else [s[0]] + ReplaceAll(s[1..], pat, rep)
  }

  /** Without an occurrence of the pattern, replacing it changes nothing. */
  lemma {:induction false} ReplaceAllAbsent(s: string, pat: string, rep: string)
    requires |pat| > 0
    requires !Contains(s, pat)
    ensures ReplaceAll(s, pat, rep) == s
    decreases |s|
  {
    if |s| >= |pat| {
      assert !StartsWith(s, pat);
      ReplaceAllAbsent(s[1..], pat, rep);
    }
  }

  /** An occurrence never fits in a shorter string. */
  lemma {:induction false} ContainsFits(s: string, p: string)
    requires Contains(s, p)
    ensures |p| <= |s|
    decreases |s|
  {
    if !StartsWith(s, p) {
      ContainsFits(s[1..], p);
    }
  }

  /** Removing a pattern never lengthens a string, and shortens it iff the pattern occurs. */
  lemma {:induction false} RemoveAllLength(s: string, pat: string)
    requires |pat| > 0
    ensures |ReplaceAll(s, pat, "")| <= |s|
    ensures Contains(s, pat) <==> |ReplaceAll(s, pat, "")| < |s|
    decreases |s|
  {
    if |s| < |pat| {
      if Contains(s, pat) {
        ContainsFits(s, pat);
      }
    } else if s[..|pat|] == pat {
      RemoveAllLength(s[|pat|..], pat);
      assert StartsWith(s, pat);
    } else {
      RemoveAllLength(s[1..], pat);
      assert !StartsWith(s, pat);
    }
  }

  /** Removing a pattern is the identity exactly on the strings that do not contain it. */
  lemma RemoveAllIdentity(s: string, pat: string)
    requires |pat| > 0
    ensures ReplaceAll(s, pat, "") == s <==> !Contains(s, pat)
  {
    RemoveAllLength(s, pat);
    if !Contains(s, pat) {
      ReplaceAllAbsent(s, pat, "");
    }
  }
}

/** Order-preserving subsequences, witnessed by a strictly increasing index map. */
module Seqs {

  /** `f` maps each position of `a` to a position of `b` holding the same element, in increasing order. */
  ghost predicate Embeds<T>(a: seq<T>, b: seq<T>, f: seq<nat>) {
    && |f| == |a|
    && (forall i :: 0 <= i < |f| ==> f[i] < |b| && a[i] == b[f[i]])
    && (forall i, j :: 0 <= i < j < |f| ==> f[i] < f[j])
  }

  /** `a` is `b` with some elements left out and the rest kept in order. */
  ghost predicate IsSubsequence<T>(a: seq<T>, b: seq<T>) {
    exists f :: Embeds(a, b, f)
  }

  /** Every index moved one place on. */
  function Shifted(f: seq<nat>): (g: seq<nat>)
    ensures |g| == |f| && forall i :: 0 <= i < |f| ==> g[i] == f[i] + 1
  {
    seq(|f|, i requires 0 <= i < |f| => f[i] + 1)
  }

  /** An embedding into the tail of `b` is, moved one place on, an embedding into `b` that avoids position 0. */
  lemma EmbedsShifted<T>(a: seq<T>, b: seq<T>, f: seq<nat>)
    requires |b| > 0 && Embeds(a, b[1..], f)
    ensures Embeds(a, b, Shifted(f))
    ensures forall j :: 1 <= j < |b| ==> (j in Shifted(f) <==> j - 1 in f)
    ensures 0 !in Shifted(f)
  {
    var g := Shifted(f);
    forall i | 0 <= i < |g|
      ensures g[i] < |b| && a[i] == b[g[i]]
    {
      assert b[1..][f[i]] == b[f[i] + 1];
    }
    forall j | 1 <= j < |b|
      ensures j in g <==> j - 1 in f
    {
      if j - 1 in f {
        var i :| 0 <= i < |f| && f[i] == j - 1;
        assert g[i] == j;
      }
    }
  }

  /** An embedding into `b` that avoids position 0 extends with `b`'s first element in front. */
  lemma EmbedsPrepend<T>(a: seq<T>, b: seq<T>, g: seq<nat>)
    requires |b| > 0 && Embeds(a, b, g) && 0 !in g
    ensures Embeds([b[0]] + a, b, [0] + g)
    ensures forall j :: j in [0] + g <==> j == 0 || j in g
  {
    var g' := [0] + g;
    forall i | 0 < i < |g'|
      ensures g'[i] == g[i - 1] && g[i - 1] > 0
    {
      assert g[i - 1] in g;
    }
  }

  /**
   * An embedding into all but the first element of `b` extends to `b`, with
   * or without that first element: the step of a filter that walks `b` from
   * the front and prepends what it keeps. Position `j > 0` is used iff
   * `j - 1` was, and position 0 iff the first element is kept.
   */
  lemma EmbedsCons<T>(a: seq<T>, b: seq<T>, f: seq<nat>, keep: bool) returns (f': seq<nat>)
    requires |b| > 0 && Embeds(a, b[1..], f)
    ensures f' == (if keep then [0] else []) + Shifted(f)
    ensures Embeds((if keep then [b[0]] else []) + a, b, f')
    ensures forall j :: 1 <= j < |b| ==> (j in f' <==> j - 1 in f)
    ensures 0 in f' <==> keep
  {
    var g := Shifted(f);
    EmbedsShifted(a, b, f);
    if keep {
      EmbedsPrepend(a, b, g);
      f' := [0] + g;
    } else {
      f' := g;
      assert [] + a == a && [] + g == g;
    }
  }

  /**
   * An embedding into all but the last element of `b` extends to `b`, with
   * or without that last element: the step of a filter that walks `b` from
   * the front and appends what it keeps.
   */
  lemma EmbedsSnoc<T>(a: seq<T>, b: seq<T>, f: seq<nat>, keep: bool)
    requires |b| > 0 && Embeds(a, b[..|b| - 1], f)
    ensures forall i :: 0 <= i < |f| ==> f[i] < |b| - 1
    ensures Embeds(a + (if keep then [b[|b| - 1]] else []), b, f + (if keep then [|b| - 1] else []))
  {
    var n := |b| - 1;
    var a', f' := a + (if keep then [b[n]] else []), f + (if keep then [n] else []);
    forall i | 0 <= i < |f'|
      ensures f'[i] < |b| && a'[i] == b[f'[i]]
    {
      if i < |f| {
        assert f'[i] == f[i] && a'[i] == a[i] && b[..n][f[i]] == b[f[i]];
      }
    }
  }
}
