/** Options, used for TypeScript's `never` (None) versus an inferred type (Some). */
module Wrappers {
  datatype Option<+T> = None | Some(value: T)
}

/**
 * TypeScript template-literal types matched against a string literal.
 *
 * A pattern `${A}D1${B}D2${C}` is matched by finding each delimiter at its
 * FIRST occurrence after the previous one, left to right; every placeholder
 * captures the text in between and the last one captures the rest.  A
 * pattern `P${X}S` with literal start and end texts only checks a prefix and
 * a suffix.
 */
module Literal {
  import opened Wrappers

  /** `s` begins with `p`. */
  predicate StartsWith(s: string, p: string) {
    |p| <= |s| && s[..|p|] == p
  }

  /** `s` ends with `p`. */
  predicate EndsWith(s: string, p: string) {
    |p| <= |s| && s[|s| - |p|..] == p
  }

  /** `lit` occurs in `s` starting at index `i`. */
  predicate OccursAt(s: string, lit: string, i: nat) {
    i <= |s| && StartsWith(s[i..], lit)
  }

  /** `lit` occurs somewhere in `s`. */
  ghost predicate Contains(s: string, lit: string) {
    exists i: nat :: OccursAt(s, lit, i)
  }

  /** The index of the first occurrence of `lit` in `s` (JavaScript's `indexOf`). */
  function IndexOf(s: string, lit: string): (r: Option<nat>)
    ensures r.Some? ==> OccursAt(s, lit, r.value)
    ensures r.Some? ==> forall j: nat :: j < r.value ==> !OccursAt(s, lit, j)
    ensures r.None? <==> !Contains(s, lit)
    decreases |s|
  {
    assert s[0..] == s;
    if StartsWith(s, lit) then
      assert OccursAt(s, lit, 0);
      Some(0)
    else if |s| == 0 then
      assert forall j: nat :: OccursAt(s, lit, j) ==> j == 0;
      None
    else
      var rest := IndexOf(s[1..], lit);
      ShiftOccurrence(s, lit);
      assert forall j: nat :: OccursAt(s, lit, j) ==> j > 0 && OccursAt(s[1..], lit, j - 1);
      match rest
      case Some(i) => Some(i + 1)
      case None => None
  }

  /** An occurrence at `j + 1` in `s` is an occurrence at `j` in `s[1..]`. */
  lemma ShiftOccurrence(s: string, lit: string)
    requires |s| > 0
    ensures forall j: nat :: OccursAt(s, lit, j + 1) <==> OccursAt(s[1..], lit, j)
  {
    forall j: nat
      ensures OccursAt(s, lit, j + 1) <==> OccursAt(s[1..], lit, j)
    {
      if j + 1 <= |s| {
        assert s[j + 1..] == s[1..][j..];
      }
    }
  }

  /** Texts `caps` interleaved with delimiters `delims`: caps[0] + delims[0] + caps[1] + ... */
  function Interleave(caps: seq<string>, delims: seq<string>): string
    requires |caps| == |delims| + 1
  {
    if |delims| == 0 then caps[0]
    else caps[0] + delims[0] + Interleave(caps[1..], delims[1..])
  }

  /**
   * Each delimiter is cut at its first occurrence in what follows the
   * previous one: the text from capture k on finds `delims[k]` first right
   * after capture k.
   */
  predicate CutsAtFirst(caps: seq<string>, delims: seq<string>) {
    |caps| == |delims| + 1 &&
    forall k :: 0 <= k < |delims| ==> IndexOf(Interleave(caps[k..], delims[k..]), delims[k]) == Some(|caps[k]|)
  }

  /**
   * Matches `s` against the pattern `${_}delims[0]${_}delims[1]...${_}`, giving
   * one capture per placeholder, or None when some delimiter is not found.
   * Each capture before a delimiter stops at that delimiter's first occurrence.
   */
  function MatchPattern(s: string, delims: seq<string>): (r: Option<seq<string>>)
    requires forall k :: 0 <= k < |delims| ==> delims[k] != ""
    ensures r.Some? ==> |r.value| == |delims| + 1 && Interleave(r.value, delims) == s
    ensures r.Some? ==> forall k :: 0 <= k < |delims| ==> !Contains(r.value[k], delims[k])
    ensures r.Some? ==> CutsAtFirst(r.value, delims)
    decreases |delims|
  {
    if |delims| == 0 then Some([s])
    else
      match IndexOf(s, delims[0])
      case None => None
      case Some(i) =>
        match MatchPattern(s[i + |delims[0]|..], delims[1..])
        case None => None
        case Some(rest) =>
          MatchPatternStep(s, delims, i, rest);
          Some([s[..i]] + rest)
  }

  /** One step of `MatchPattern`: the first occurrence of the first delimiter, then the rest. */
  lemma MatchPatternStep(s: string, delims: seq<string>, i: nat, rest: seq<string>)
    requires |delims| > 0 && delims[0] != "" && IndexOf(s, delims[0]) == Some(i)
    requires |rest| == |delims| && Interleave(rest, delims[1..]) == s[i + |delims[0]|..]
    requires forall k :: 0 <= k < |delims| - 1 ==> !Contains(rest[k], delims[k + 1])
    requires CutsAtFirst(rest, delims[1..])
    ensures Interleave([s[..i]] + rest, delims) == s
    ensures forall k :: 0 <= k < |delims| ==> !Contains(([s[..i]] + rest)[k], delims[k])
    ensures CutsAtFirst([s[..i]] + rest, delims)
  {
    var caps := [s[..i]] + rest;
    assert caps[1..] == rest;
    SplitAtOccurrence(s, delims[0], i);
    NoOccurrenceBefore(s, delims[0], i);
    forall k | 0 <= k < |delims| ensures !Contains(caps[k], delims[k]) {
      if k > 0 {
        assert caps[k] == rest[k - 1];
      }
    }
    assert Interleave(caps, delims) == s;
    CutsAtFirstCons(s[..i], rest, delims);
  }

  /**
   * `MatchPattern`'s contract pins its result: the captures that rebuild the
   * text with every delimiter cut at its first occurrence are the match.
   */
  lemma {:induction false} MatchPatternDetermined(s: string, caps: seq<string>, delims: seq<string>)
    requires forall k :: 0 <= k < |delims| ==> delims[k] != ""
    requires |caps| == |delims| + 1 && Interleave(caps, delims) == s && CutsAtFirst(caps, delims)
    ensures MatchPattern(s, delims) == Some(caps)
    decreases |delims|
  {
    if |delims| > 0 {
      var d := delims[0];
      var tail := Interleave(caps[1..], delims[1..]);
      var i := |caps[0]|;
      assert s == caps[0] + d + tail;
      CutAt(caps, delims, 0);
      assert caps[0..] == caps && delims[0..] == delims;
      assert IndexOf(s, d) == Some(i);
      SplitAtOccurrence(s, d, i);
      CutDetermined(caps[0], tail, s[..i], s[i + |d|..], d);
      assert forall k :: 0 <= k < |delims[1..]| ==> delims[1..][k] == delims[k + 1];
      CutsAtFirstTail(caps, delims);
      MatchPatternDetermined(tail, caps[1..], delims[1..]);
      MatchPatternUnfold(s, delims, i, caps[1..]);
      assert [caps[0]] + caps[1..] == caps;
    } else {
      assert caps == [caps[0]];
    }
  }

  /** One step of `MatchPattern`, from the first delimiter's first occurrence. */
  lemma MatchPatternUnfold(s: string, delims: seq<string>, i: nat, rest: seq<string>)
    requires forall k :: 0 <= k < |delims| ==> delims[k] != ""
    requires |delims| > 0 && IndexOf(s, delims[0]) == Some(i)
    requires MatchPattern(s[i + |delims[0]|..], delims[1..]) == Some(rest)
    ensures MatchPattern(s, delims) == Some([s[..i]] + rest)
  {
  }

  /** Cuts at first occurrences stay so without their first capture. */
  lemma CutsAtFirstTail(caps: seq<string>, delims: seq<string>)
    requires |delims| > 0 && CutsAtFirst(caps, delims)
    ensures CutsAtFirst(caps[1..], delims[1..])
  {
    forall k | 0 <= k < |delims| - 1
      ensures IndexOf(Interleave(caps[1..][k..], delims[1..][k..]), delims[1..][k]) == Some(|caps[1..][k]|)
    {
      assert caps[1..][k..] == caps[k + 1..] && delims[1..][k..] == delims[k + 1..];
      assert IndexOf(Interleave(caps[k + 1..], delims[k + 1..]), delims[k + 1]) == Some(|caps[k + 1]|);
    }
  }

  /** A first cut in front of cuts at first occurrences gives cuts at first occurrences. */
  lemma CutsAtFirstCons(x: string, rest: seq<string>, delims: seq<string>)
    requires |delims| > 0 && |rest| == |delims|
    requires IndexOf(Interleave([x] + rest, delims), delims[0]) == Some(|x|)
    requires CutsAtFirst(rest, delims[1..])
    ensures CutsAtFirst([x] + rest, delims)
  {
    var caps := [x] + rest;
    forall k | 0 <= k < |delims|
      ensures IndexOf(Interleave(caps[k..], delims[k..]), delims[k]) == Some(|caps[k]|)
    {
      if k == 0 {
        assert caps[0..] == caps && delims[0..] == delims;
      } else {
        assert caps[k..] == rest[k - 1..] && caps[k] == rest[k - 1];
        assert delims[k..] == delims[1..][k - 1..] && delims[k] == delims[1..][k - 1];
      }
    }
  }

  /** `s` is cut around an occurrence of `d` at `i`. */
  lemma SplitAtOccurrence(s: string, d: string, i: nat)
    requires OccursAt(s, d, i)
    ensures s == s[..i] + d + s[i + |d|..]
  {
    assert s == s[..i] + s[i..i + |d|] + s[i + |d|..];
    assert s[i..i + |d|] == s[i..][..|d|];
  }

  /** The text before the first occurrence of `d` does not contain `d`. */
  lemma NoOccurrenceBefore(s: string, d: string, i: nat)
    requires d != "" && IndexOf(s, d) == Some(i)
    ensures !Contains(s[..i], d)
  {
    forall j: nat | OccursAt(s[..i], d, j) ensures false {
      assert j < i;
      assert s[..i][j..][..|d|] == s[j..][..|d|];
      assert OccursAt(s, d, j);
    }
  }

  /** Prepending text to an interleaving prepends it to the first text. */
  lemma {:induction false} InterleavePrepend(x: string, caps: seq<string>, delims: seq<string>)
    requires |caps| == |delims| + 1
    ensures Interleave([x + caps[0]] + caps[1..], delims) == x + Interleave(caps, delims)
  {
    var caps' := [x + caps[0]] + caps[1..];
    assert caps'[1..] == caps[1..];
  }

  /**
   * The search succeeds whenever `s` can be cut into texts separated by the
   * delimiters in order: first-occurrence matching misses no match.
   */
  lemma {:induction false} MatchPatternComplete(s: string, caps: seq<string>, delims: seq<string>)
    requires forall k :: 0 <= k < |delims| ==> delims[k] != ""
    requires |caps| == |delims| + 1 && Interleave(caps, delims) == s
    ensures MatchPattern(s, delims).Some?
    decreases |delims|
  {
    if |delims| > 0 {
      var d := delims[0];
      var rest := Interleave(caps[1..], delims[1..]);
      assert s == caps[0] + d + rest;
      OccursAfter(caps[0], d, rest);
      FirstOccurrenceNoLater(s, d, |caps[0]|);
      var i := IndexOf(s, d).value;
      var extra := s[i + |d|..|caps[0]| + |d|];
      var tail := s[i + |d|..];
      TailAfterEarlier(caps[0], d, rest, i);
      assert caps[1..][1..] == caps[2..];
      InterleavePrepend(extra, caps[1..], delims[1..]);
      MatchPatternComplete(tail, [extra + caps[1]] + caps[2..], delims[1..]);
      SplitAtOccurrence(s, d, i);
      assert [d] + delims[1..] == delims;
      MatchPatternCons(s[..i], d, tail, delims[1..], MatchPattern(tail, delims[1..]).value);
    }
  }

  /** A delimiter written after `a` occurs right after `a`. */
  lemma OccursAfter(a: string, d: string, r: string)
    ensures OccursAt(a + d + r, d, |a|)
  {
    assert (a + d + r)[|a|..] == d + r;
  }

  /** The first occurrence is no later than any occurrence. */
  lemma FirstOccurrenceNoLater(s: string, d: string, k: nat)
    requires OccursAt(s, d, k)
    ensures IndexOf(s, d).Some? && IndexOf(s, d).value <= k
  {
  }

  /** What follows an earlier occurrence of `d` in `a + d + r` ends with `r`. */
  lemma TailAfterEarlier(a: string, d: string, r: string, i: nat)
    requires i <= |a|
    ensures (a + d + r)[i + |d|..] == (a + d + r)[i + |d|..|a| + |d|] + r
  {
    var s := a + d + r;
    assert s[|a| + |d|..] == r;
  }

  /** Matches `s` against `pre${X}suf`, giving X. */
  function MatchAffix(s: string, pre: string, suf: string): (r: Option<string>)
    ensures r.Some? <==> |pre| + |suf| <= |s| && StartsWith(s, pre) && EndsWith(s, suf)
    ensures r.Some? ==> s == pre + r.value + suf
  {
    if |pre| + |suf| <= |s| && StartsWith(s, pre) && EndsWith(s, suf) then
      var x := s[|pre|..|s| - |suf|];
      assert s == s[..|pre|] + x + s[|s| - |suf|..];
      Some(x)
    else None
  }

  /** Two delimiters interleaved, written out. */
  lemma Interleave2(caps: seq<string>, d0: string, d1: string)
    requires |caps| == 3
    ensures Interleave(caps, [d0, d1]) == caps[0] + d0 + caps[1] + d1 + caps[2]
  {
    assert [d0, d1][1..] == [d1];
    assert [d0, d1][1..][1..] == [];
    assert Interleave(caps[2..], []) == caps[2];
    assert Interleave(caps[1..], [d1]) == caps[1] + d1 + caps[2];
  }

  /** Three delimiters interleaved, written out. */
  lemma Interleave3(caps: seq<string>, d0: string, d1: string, d2: string)
    requires |caps| == 4
    ensures Interleave(caps, [d0, d1, d2]) == caps[0] + d0 + caps[1] + d1 + caps[2] + d2 + caps[3]
  {
    assert [d0, d1, d2][1..] == [d1, d2];
    Interleave2(caps[1..], d1, d2);
    assert caps[1..][0] == caps[1] && caps[1..][1] == caps[2] && caps[1..][2] == caps[3];
    AppendAssoc5(caps[0] + d0, caps[1], d1, caps[2], d2, caps[3]);
  }

  /** Cuts at first occurrences of two delimiters, written out. */
  lemma FirstCuts2(caps: seq<string>, d0: string, d1: string)
    requires CutsAtFirst(caps, [d0, d1])
    ensures IndexOf(caps[0] + d0 + caps[1] + d1 + caps[2], d0) == Some(|caps[0]|)
    ensures IndexOf(caps[1] + d1 + caps[2], d1) == Some(|caps[1]|)
  {
    assert caps[0..] == caps && [d0, d1][0..] == [d0, d1];
    Interleave2(caps, d0, d1);
    assert IndexOf(Interleave(caps[1..], [d0, d1][1..]), d1) == Some(|caps[1]|);
    assert [d0, d1][1..] == [d1] && [d1][1..] == [];
    assert Interleave(caps[1..], [d1]) == caps[1] + d1 + caps[2];
  }

  /** Cuts at first occurrences of three delimiters, written out. */
  lemma FirstCuts3(caps: seq<string>, d0: string, d1: string, d2: string)
    requires CutsAtFirst(caps, [d0, d1, d2])
    ensures IndexOf(caps[0] + d0 + caps[1] + d1 + caps[2] + d2 + caps[3], d0) == Some(|caps[0]|)
    ensures IndexOf(caps[1] + d1 + caps[2] + d2 + caps[3], d1) == Some(|caps[1]|)
    ensures IndexOf(caps[2] + d2 + caps[3], d2) == Some(|caps[2]|)
  {
    var ds := [d0, d1, d2];
    CutAt(caps, ds, 0);
    assert caps[0..] == caps && ds[0..] == ds;
    Interleave3(caps, d0, d1, d2);
    CutAt(caps, ds, 1);
    assert ds[1..] == [d1, d2];
    Interleave2From(caps, d1, d2);
    CutAt(caps, ds, 2);
    assert ds[2..] == [d2];
    Interleave1From(caps, d2);
  }

  lemma CutAt(caps: seq<string>, delims: seq<string>, k: nat)
    requires CutsAtFirst(caps, delims) && k < |delims|
    ensures IndexOf(Interleave(caps[k..], delims[k..]), delims[k]) == Some(|caps[k]|)
  {
  }

  lemma Interleave2From(caps: seq<string>, d1: string, d2: string)
    requires |caps| == 4
    ensures Interleave(caps[1..], [d1, d2]) == caps[1] + d1 + caps[2] + d2 + caps[3]
  {
    Interleave2(caps[1..], d1, d2);
    assert caps[1..][0] == caps[1] && caps[1..][1] == caps[2] && caps[1..][2] == caps[3];
  }

  lemma Interleave1From(caps: seq<string>, d2: string)
    requires |caps| == 4
    ensures Interleave(caps[2..], [d2]) == caps[2] + d2 + caps[3]
  {
    assert [d2][1..] == [];
    assert caps[2..][1..] == [caps[3]];
  }

  /** Two cuts around the same delimiter at the same place are the same cut. */
  lemma CutDetermined(a1: string, b1: string, a2: string, b2: string, d: string)
    requires a1 + d + b1 == a2 + d + b2 && |a1| == |a2|
    ensures a1 == a2 && b1 == b2
  {
    var t := a1 + d + b1;
    assert a1 == t[..|a1|] && a2 == t[..|a2|];
    assert b1 == t[|a1| + |d|..] && b2 == t[|a2| + |d|..];
  }

  /** A pattern found in a suffix is found in the whole text. */
  lemma PatternInSuffix(x: string, y: string, delims: seq<string>)
    requires forall k :: 0 <= k < |delims| ==> delims[k] != ""
    requires MatchPattern(y, delims).Some?
    ensures MatchPattern(x + y, delims).Some?
  {
    var caps := MatchPattern(y, delims).value;
    InterleavePrepend(x, caps, delims);
    MatchPatternComplete(x + y, [x + caps[0]] + caps[1..], delims);
  }

  /** Two delimiters occurring in order, without overlap, make the two-delimiter pattern match. */
  lemma PairFromOccurrences(s: string, d0: string, d1: string, i: nat, j: nat)
    requires d0 != "" && d1 != ""
    requires OccursAt(s, d0, i) && OccursAt(s, d1, j) && i + |d0| <= j
    ensures MatchPattern(s, [d0, d1]).Some?
  {
    var caps := [s[..i], s[i + |d0|..j], s[j + |d1|..]];
    assert s[i..i + |d0|] == d0 by { assert s[i..][..|d0|] == s[i..i + |d0|]; }
    assert s[j..j + |d1|] == d1 by { assert s[j..][..|d1|] == s[j..j + |d1|]; }
    assert s == s[..i] + s[i..i + |d0|] + s[i + |d0|..j] + s[j..j + |d1|] + s[j + |d1|..];
    Interleave2(caps, d0, d1);
    MatchPatternComplete(s, caps, [d0, d1]);
  }

  /** An occurrence of `d` is an occurrence of each prefix of `d`. */
  lemma PrefixOccurs(s: string, d: string, p: string, i: nat)
    requires OccursAt(s, d, i) && StartsWith(d, p)
    ensures OccursAt(s, p, i)
  {
    assert s[i..][..|p|] == s[i..][..|d|][..|p|];
  }

  /** A text lacking one of a delimiter's characters does not contain the delimiter. */
  lemma AbsentWithoutChar(s: string, lit: string, c: char)
    requires c in lit && c !in s
    ensures IndexOf(s, lit) == None
  {
    forall j: nat | OccursAt(s, lit, j) ensures false {
    }
  }

  /**
   * A delimiter is found right after `a` when one of its characters, first
   * seen at index `k` of the delimiter, does not occur in `a`.
   */
  lemma FindByMarker(a: string, lit: string, b: string, k: nat)
    requires k < |lit| && lit[k] !in a && lit[k] !in lit[..k]
    ensures IndexOf(a + lit + b, lit) == Some(|a|)
  {
    var s := a + lit + b;
    assert s[|a|..] == lit + b;
    assert OccursAt(s, lit, |a|);
  }

  /**
   * No occurrence across a marker: `c` occurs once in `lit` (at `k`), not in
   * `x`; if `lit` is not aligned on this `c` and not in `y`, it is nowhere.
   */
  lemma NoOccurrenceAcrossMarker(x: string, c: char, y: string, lit: string, k: nat)
    requires k < |lit| && lit[k] == c && c !in lit[..k] && c !in lit[k + 1..] && c !in x
    requires |x| >= k ==> !OccursAt(x + [c] + y, lit, |x| - k)
    requires !Contains(y, lit)
    ensures !Contains(x + [c] + y, lit)
  {
    var s := x + [c] + y;
    forall j: nat | OccursAt(s, lit, j) ensures false {
      if j + k < |x| {
        CharAt(s, lit, j, k);
      } else if j <= |x| {
        CharAt(s, lit, j, |x| - j);
        UniqueAt(lit, k, |x| - j);
      } else {
        assert s[|x| + 1..] == y;
        SuffixOccursBack(s, lit, |x| + 1, j);
      }
    }
  }

  /** An occurrence of `d` at `j` puts `d[m]` at `j + m`. */
  lemma CharAt(s: string, d: string, j: nat, m: nat)
    requires OccursAt(s, d, j) && m < |d|
    ensures j + m < |s| && s[j + m] == d[m]
  {
    assert s[j..][..|d|][m] == s[j + m];
  }

  /** A character occurring once in `d`, at `k`, is at no other index. */
  lemma UniqueAt(d: string, k: nat, m: nat)
    requires k < |d| && d[k] !in d[..k] && d[k] !in d[k + 1..]
    requires m < |d| && d[m] == d[k]
    ensures m == k
  {
  }

  /** An occurrence at or after `k` is an occurrence in the suffix from `k`. */
  lemma SuffixOccursBack(s: string, d: string, k: nat, j: nat)
    requires k <= j && OccursAt(s, d, j)
    ensures OccursAt(s[k..], d, j - k)
  {
    assert s[k..][j - k..] == s[j..];
  }

  /** One step of `MatchPattern`: the first delimiter found right after `a`, the rest matched after it. */
  lemma {:induction false} MatchPatternCons(a: string, d: string, rest: string, ds: seq<string>, caps: seq<string>)
    requires d != "" && forall k :: 0 <= k < |ds| ==> ds[k] != ""
    requires IndexOf(a + d + rest, d) == Some(|a|)
    requires MatchPattern(rest, ds) == Some(caps)
    ensures MatchPattern(a + d + rest, [d] + ds) == Some([a] + caps)
  {
    var t := a + d + rest;
    var delims := [d] + ds;
    assert delims[0] == d && delims[1..] == ds;
    assert t[..|a|] == a;
    assert t[|a| + |d|..] == rest;
  }

  /** The one-delimiter pattern splits at a delimiter located by a marker. */
  lemma {:induction false} MatchOneByMarker(e: string, d: string, b: string, k: nat)
    requires k < |d| && d[k] !in e && d[k] !in d[..k]
    ensures MatchPattern(e + d + b, [d]) == Some([e, b])
  {
    FindByMarker(e, d, b, k);
    assert MatchPattern(b, []) == Some([b]);
    MatchPatternCons(e, d, b, [], [b]);
    assert [d] + [] == [d];
    assert [e] + [b] == [e, b];
  }

  /** The two-delimiter pattern splits at delimiters located by markers. */
  lemma {:induction false} MatchTwoByMarkers(a: string, d0: string, e: string, d1: string, b: string, k0: nat, k1: nat)
    requires k0 < |d0| && d0[k0] !in a && d0[k0] !in d0[..k0]
    requires k1 < |d1| && d1[k1] !in e && d1[k1] !in d1[..k1]
    ensures MatchPattern(a + d0 + e + d1 + b, [d0, d1]) == Some([a, e, b])
  {
    var tail := e + d1 + b;
    assert [d0] + [d1] == [d0, d1];
    assert [a] + [e, b] == [a, e, b];
    AppendAssoc3(a + d0, e, d1, b);
    MatchOneByMarker(e, d1, b, k1);
    FindByMarker(a, d0, tail, k0);
    MatchPatternCons(a, d0, tail, [d1], [e, b]);
  }

  /** The three-delimiter pattern splits at delimiters located by markers. */
  lemma {:induction false} MatchThreeByMarkers(a: string, d0: string, e0: string, d1: string, e1: string, d2: string, b: string,
                                               k0: nat, k1: nat, k2: nat)
    requires k0 < |d0| && d0[k0] !in a && d0[k0] !in d0[..k0]
    requires k1 < |d1| && d1[k1] !in e0 && d1[k1] !in d1[..k1]
    requires k2 < |d2| && d2[k2] !in e1 && d2[k2] !in d2[..k2]
    ensures MatchPattern(a + d0 + e0 + d1 + e1 + d2 + b, [d0, d1, d2]) == Some([a, e0, e1, b])
  {
    var tail := e0 + d1 + e1 + d2 + b;
    assert [d0] + [d1, d2] == [d0, d1, d2];
    assert [a] + [e0, e1, b] == [a, e0, e1, b];
    MatchTwoByMarkers(e0, d1, e1, d2, b, k1, k2);
    FindByMarker(a, d0, tail, k0);
    MatchPatternCons(a, d0, tail, [d1, d2], [e0, e1, b]);
    AppendAssoc5(a + d0, e0, d1, e1, d2, b);
  }

  /**
   * A delimiter whose marker `#` sits at index 2 does not occur across a `#`
   * whose next character differs from the delimiter's next character.
   */
  lemma NoOccurrenceAcrossHash(x: string, y: string, lit: string)
    requires |lit| > 3 && lit[2] == '#' && '#' !in lit[..2] && '#' !in lit[3..] && '#' !in x
    requires |y| > 0 && y[0] != lit[3] && !Contains(y, lit)
    ensures !Contains(x + "#" + y, lit)
  {
    var s := x + "#" + y;
    assert s == x + ['#'] + y;
    NoOccurrenceAcrossMarker(x, '#', y, lit, 2);
  }

  /** Regrouping a concatenation of four texts. */
  lemma AppendAssoc3(p: string, e: string, d: string, b: string)
    ensures p + e + d + b == p + (e + d + b)
  {
  }

  /** Regrouping a concatenation of six texts. */
  lemma AppendAssoc5(p: string, e0: string, d1: string, e1: string, d2: string, b: string)
    ensures p + e0 + d1 + e1 + d2 + b == p + (e0 + d1 + e1 + d2 + b)
  {
  }
}
