/**
 * The JavaScript string operations the renderer relies on, over `string`
 * (a `seq<char>`): ASCII upper-casing (`toUpperCase`), replacing the first
 * occurrence of a character (`replace` with a one-character string pattern)
 * and global literal replacement (`replace` with a `g` regular expression
 * whose pattern has no metacharacters), together with the occurrence,
 * split and join notions used to specify them.
 */
module Strings {

  /** `t` occurs in `s` starting at index `k`. */
  predicate OccursAt(s: string, t: string, k: int)
  {
    0 <= k && k + |t| <= |s| && s[k..k + |t|] == t
  }

  /** `t` occurs somewhere in `s`. */
  predicate Occurs(s: string, t: string)
  {
    exists k | 0 <= k <= |s| :: OccursAt(s, t, k)
  }

  /** A `{{name}}` placeholder, the shape of every token in a template body. */
  function Placeholder(name: string): (p: string)
    ensures |p| == |name| + 4
    ensures p[..2] == "{{" && p[2..|p| - 2] == name && p[|p| - 2..] == "}}"
  {
    "{{" + name + "}}"
  }

  predicate BraceFree(s: string)
  {
    '{' !in s && '}' !in s
  }

  // ---------------------------------------------------------------------
  // Upper-casing and first-occurrence replacement
  // ---------------------------------------------------------------------

  /** ASCII `toUpperCase` of one character. */
  function UpperChar(c: char): (u: char)
    ensures 'a' <= c <= 'z' ==> u as int == c as int - 32
    ensures !('a' <= c <= 'z') ==> u == c
  {
    if 'a' <= c <= 'z' then (c as int - 32) as char else c
  }

  /** ASCII `toLowerCase` of one character. */
  function LowerChar(c: char): (l: char)
    ensures 'A' <= c <= 'Z' ==> l as int == c as int + 32
    ensures !('A' <= c <= 'Z') ==> l == c
  {
    if 'A' <= c <= 'Z' then (c as int + 32) as char else c
  }

  /** `s.toUpperCase()` on ASCII text. */
  function Upper(s: string): (u: string)
    ensures |u| == |s|
    ensures forall i :: 0 <= i < |s| ==> u[i] == UpperChar(s[i])
  {
    seq(|s|, i requires 0 <= i < |s| => UpperChar(s[i]))
  }

  /** `s.toLowerCase()` on ASCII text. */
  function Lower(s: string): (l: string)
    ensures |l| == |s|
    ensures forall i :: 0 <= i < |s| ==> l[i] == LowerChar(s[i])
  {
    seq(|s|, i requires 0 <= i < |s| => LowerChar(s[i]))
  }

  /** Index of the first `c` in `s`, or `|s|` when there is none. */
  function FirstIndex(s: string, c: char): (k: nat)
    ensures k <= |s|
    ensures c !in s[..k]
    ensures k < |s| ==> s[k] == c
    decreases |s|
  {
    if s == [] then 0
    else if s[0] == c then 0
    else
      var k := 1 + FirstIndex(s[1..], c);
      assert s[..k] == [s[0]] + s[1..][..k - 1];
      k
  }

  /** `s.replace(c, d)` with one-character strings: only the first `c` changes. */
  function ReplaceFirst(s: string, c: char, d: char): (r: string)
    ensures |r| == |s|
    ensures c !in s ==> r == s
    ensures forall i :: 0 <= i < |s| ==> r[i] == s[i] || (s[i] == c && r[i] == d)
  {
    var k := FirstIndex(s, c);
    if k < |s| then s[k := d] else s
  }

  /** The first `c` is at `k`: replacing the first `c` rewrites exactly index `k`. */
  lemma ReplaceFirstAt(s: string, c: char, d: char, k: nat)
    requires k < |s| && s[k] == c && c !in s[..k]
    ensures ReplaceFirst(s, c, d) == s[k := d]
  {
    var j := FirstIndex(s, c);
    assert j == k;
  }

  // ---------------------------------------------------------------------
  // Global literal replacement
  // ---------------------------------------------------------------------

  /**
   * `s.replace(new RegExp(pat, 'g'), rep)` for a pattern read literally:
   * scan left to right, replace each occurrence of `pat` by `rep` and resume
   * after it, so occurrences never overlap and inserted text is not rescanned.
   */
  function ReplaceAll(s: string, pat: string, rep: string): (r: string)
    requires pat != []
    ensures r == Join(SplitOn(s, pat), rep)
    decreases |s|
  {
    if |s| < |pat| then s
    else if s[..|pat|] == pat then
      assert ([""] + SplitOn(s[|pat|..], pat))[1..] == SplitOn(s[|pat|..], pat);
      rep + ReplaceAll(s[|pat|..], pat, rep)
    else
      JoinCons(s[0], SplitOn(s[1..], pat), rep);
      [s[0]] + ReplaceAll(s[1..], pat, rep)
  }

  /** Number of occurrences `ReplaceAll` replaces. */
  function Count(s: string, pat: string): nat
    requires pat != []
    decreases |s|
  {
    if |s| < |pat| then 0
    else if s[..|pat|] == pat then 1 + Count(s[|pat|..], pat)
    else Count(s[1..], pat)
  }

  /** The pieces of `s` between the occurrences `ReplaceAll` replaces. */
  function SplitOn(s: string, pat: string): (parts: seq<string>)
    requires pat != []
    ensures |parts| >= 1
    decreases |s|
  {
    if |s| < |pat| then [s]
    else if s[..|pat|] == pat then [""] + SplitOn(s[|pat|..], pat)
    else
      var rest := SplitOn(s[1..], pat);
      [[s[0]] + rest[0]] + rest[1..]
  }

  /** `parts.join(sep)`. */
  function Join(parts: seq<string>, sep: string): string
    requires |parts| >= 1
    decreases |parts|
  {
    if |parts| == 1 then parts[0] else parts[0] + sep + Join(parts[1..], sep)
  }

  // ---------------------------------------------------------------------
  // Occurrence lemmas
  // ---------------------------------------------------------------------

  lemma OccursAtChar(s: string, t: string, k: int, i: int)
    requires OccursAt(s, t, k) && 0 <= i < |t|
    ensures s[k + i] == t[i]
  {
    assert s[k..k + |t|][i] == s[k + i];
  }

  /** Occurrences move with a prefix `x` put in front. */
  lemma OccursAtShift(x: string, y: string, t: string, j: int)
    requires 0 <= j
    ensures OccursAt(y, t, j) <==> OccursAt(x + y, t, |x| + j)
  {
    if j + |t| <= |y| {
      assert (x + y)[|x| + j..|x| + j + |t|] == y[j..j + |t|];
    }
  }

  /** Occurrences stay put when a suffix `y` is appended. */
  lemma OccursAtExtend(x: string, y: string, t: string, j: int)
    requires OccursAt(x, t, j)
    ensures OccursAt(x + y, t, j)
  {
    assert (x + y)[j..j + |t|] == x[j..j + |t|];
  }

  lemma OccursMiddle(a: string, t: string, b: string)
    ensures OccursAt(a + t + b, t, |a|)
  {
    assert (a + t + b)[|a|..|a| + |t|] == t;
  }

  lemma OccursRight(a: string, b: string, t: string)
    requires Occurs(b, t)
    ensures Occurs(a + b, t)
  {
    var k :| 0 <= k <= |b| && OccursAt(b, t, k);
    OccursAtShift(a, b, t, k);
  }

  /** When `s` does not start with `pat`, an occurrence in `s` is one in `s[1..]`. */
  lemma OccursTail(s: string, pat: string)
    requires s != [] && pat != [] && !OccursAt(s, pat, 0)
    ensures Occurs(s, pat) <==> Occurs(s[1..], pat)
  {
    assert s == [s[0]] + s[1..];
    if Occurs(s, pat) {
      var k :| 0 <= k <= |s| && OccursAt(s, pat, k);
      OccursAtShift([s[0]], s[1..], pat, k - 1);
    }
    if Occurs(s[1..], pat) {
      var k :| 0 <= k <= |s[1..]| && OccursAt(s[1..], pat, k);
      OccursAtShift([s[0]], s[1..], pat, k);
    }
  }

  // ---------------------------------------------------------------------
  // Properties of ReplaceAll
  // ---------------------------------------------------------------------

  /** No occurrence is counted exactly when the pattern does not occur. */
  lemma {:induction false} CountZeroIff(s: string, pat: string)
    requires pat != []
    ensures Count(s, pat) == 0 <==> !Occurs(s, pat)
    decreases |s|
  {
    if |s| < |pat| {
      assert !Occurs(s, pat);
    } else if s[..|pat|] == pat {
      assert OccursAt(s, pat, 0);
    } else {
      OccursTail(s, pat);
      CountZeroIff(s[1..], pat);
    }
  }

  /** A pattern that does not occur leaves the string unchanged. */
  lemma {:induction false} ReplaceAllAbsent(s: string, pat: string, rep: string)
    requires pat != [] && !Occurs(s, pat)
    ensures ReplaceAll(s, pat, rep) == s
    decreases |s|
  {
    if |s| >= |pat| {
      assert !OccursAt(s, pat, 0);
      OccursTail(s, pat);
      ReplaceAllAbsent(s[1..], pat, rep);
      assert s == [s[0]] + s[1..];
    }
  }

  /** Replacing a pattern by itself is the identity. */
  lemma {:induction false} ReplaceAllSelf(s: string, pat: string)
    requires pat != []
    ensures ReplaceAll(s, pat, pat) == s
    decreases |s|
  {
    if |s| >= |pat| {
      if s[..|pat|] == pat {
        ReplaceAllSelf(s[|pat|..], pat);
        assert s == s[..|pat|] + s[|pat|..];
      } else {
        ReplaceAllSelf(s[1..], pat);
        assert s == [s[0]] + s[1..];
      }
    }
  }

  /** A string that is exactly the pattern becomes exactly the replacement. */
  lemma ReplaceAllWhole(pat: string, rep: string)
    requires pat != []
    ensures ReplaceAll(pat, pat, rep) == rep
  {
    assert pat[..|pat|] == pat;
    assert ReplaceAll(pat[|pat|..], pat, rep) == [];
  }

  /** Helper for `ReplaceAllLength`: keeps the non-linear step out of its proof. */
  lemma MulSucc(c: int, d: int)
    ensures (c + 1) * d == c * d + d
  {
  }

  /** Each replacement changes the length by `|rep| - |pat|`. */
  lemma {:induction false} ReplaceAllLength(s: string, pat: string, rep: string)
    requires pat != []
    ensures |ReplaceAll(s, pat, rep)| == |s| + Count(s, pat) * (|rep| - |pat|)
    decreases |s|
  {
    if |s| >= |pat| {
      if s[..|pat|] == pat {
        ReplaceAllLength(s[|pat|..], pat, rep);
        var c := Count(s[|pat|..], pat);
        assert ReplaceAll(s, pat, rep) == rep + ReplaceAll(s[|pat|..], pat, rep);
        assert Count(s, pat) == c + 1;
        MulSucc(c, |rep| - |pat|);
      } else {
        ReplaceAllLength(s[1..], pat, rep);
      }
    }
  }

  lemma JoinStartsWith(parts: seq<string>, sep: string)
    requires |parts| >= 1
    ensures parts[0] <= Join(parts, sep)
  {
  }

  /** Prepending a character to the first piece prepends it to the join. */
  lemma JoinCons(c: char, parts: seq<string>, sep: string)
    requires |parts| >= 1
    ensures Join([[c] + parts[0]] + parts[1..], sep) == [c] + Join(parts, sep)
  {
    var q := [[c] + parts[0]] + parts[1..];
    assert q[1..] == parts[1..];
  }

  /** Joining the pieces with the pattern gives back the original string. */
  lemma SplitJoin(s: string, pat: string)
    requires pat != []
    ensures Join(SplitOn(s, pat), pat) == s
  {
    ReplaceAllSelf(s, pat);
  }

  /** There is one more piece than there are occurrences. */
  lemma {:induction false} SplitCount(s: string, pat: string)
    requires pat != []
    ensures |SplitOn(s, pat)| == Count(s, pat) + 1
    decreases |s|
  {
    if |s| >= |pat| {
      if s[..|pat|] == pat {
        SplitCount(s[|pat|..], pat);
      } else {
        SplitCount(s[1..], pat);
      }
    }
  }

  /** No piece contains the pattern. */
  lemma {:induction false} SplitPiecesFree(s: string, pat: string)
    requires pat != []
    ensures forall i :: 0 <= i < |SplitOn(s, pat)| ==> !Occurs(SplitOn(s, pat)[i], pat)
    decreases |s|
  {
    var parts := SplitOn(s, pat);
    if |s| < |pat| {
      assert parts == [s];
    } else if s[..|pat|] == pat {
      SplitPiecesFree(s[|pat|..], pat);
      var rest := SplitOn(s[|pat|..], pat);
      assert parts == [""] + rest;
      forall i | 0 <= i < |parts|
        ensures !Occurs(parts[i], pat)
      {
        if i > 0 {
          assert parts[i] == rest[i - 1];
        }
      }
    } else {
      SplitPiecesFree(s[1..], pat);
      var rest := SplitOn(s[1..], pat);
      var p := [s[0]] + rest[0];
      assert parts == [p] + rest[1..];
      SplitJoin(s, pat);
      JoinStartsWith(parts, pat);
      assert p == s[..|p|];
      forall i | 0 <= i < |parts|
        ensures !Occurs(parts[i], pat)
      {
        if i == 0 {
          assert !OccursAt(p, pat, 0);
          assert !Occurs(rest[0], pat);
          assert p[1..] == rest[0];
          OccursTail(p, pat);
        } else {
          assert parts[i] == rest[i];
        }
      }
    }
  }

  /** Dropping a prefix `p` keeps the seam between `a` and `b` free of straddling matches. */
  lemma SeamShift(p: string, a: string, b: string, pat: string)
    requires forall j :: 0 <= j < |p + a| < j + |pat| ==> !OccursAt(p + a + b, pat, j)
    ensures forall j :: 0 <= j < |a| < j + |pat| ==> !OccursAt(a + b, pat, j)
  {
    forall j | 0 <= j < |a| < j + |pat|
      ensures !OccursAt(a + b, pat, j)
    {
      OccursAtShift(p, a + b, pat, j);
      assert p + (a + b) == p + a + b;
    }
  }

  /** One scanning step over a match at the front. */
  lemma UnfoldMatch(s: string, pat: string, rep: string)
    requires pat != [] && |s| >= |pat| && s[..|pat|] == pat
    ensures ReplaceAll(s, pat, rep) == rep + ReplaceAll(s[|pat|..], pat, rep)
    ensures Count(s, pat) == 1 + Count(s[|pat|..], pat)
  {
  }

  /** One scanning step over a character that starts no match. */
  lemma UnfoldSkip(s: string, pat: string, rep: string)
    requires pat != [] && s != [] && (|s| < |pat| || s[..|pat|] != pat)
    ensures ReplaceAll(s, pat, rep) == [s[0]] + ReplaceAll(s[1..], pat, rep)
    ensures Count(s, pat) == Count(s[1..], pat)
  {
    if |s| < |pat| {
      assert ReplaceAll(s[1..], pat, rep) == s[1..];
      assert Count(s[1..], pat) == 0;
    }
  }

  /** A match at the front of `a + b`, with no match across the seam, lies inside `a`. */
  lemma SeamMatchFront(a: string, b: string, pat: string)
    requires pat != [] && a != []
    requires forall j :: 0 <= j < |a| < j + |pat| ==> !OccursAt(a + b, pat, j)
    requires |a + b| >= |pat| && (a + b)[..|pat|] == pat
    ensures |a| >= |pat| && a[..|pat|] == pat && (a + b)[|pat|..] == a[|pat|..] + b
    ensures forall j :: 0 <= j < |a[|pat|..]| < j + |pat| ==> !OccursAt(a[|pat|..] + b, pat, j)
  {
    if |a| < |pat| {
      assert OccursAt(a + b, pat, 0);
      assert false;
    }
    assert a == a[..|pat|] + a[|pat|..];
    SeamShift(a[..|pat|], a[|pat|..], b, pat);
  }

  /** No match at the front of `a + b`: the first character of `a` is skipped. */
  lemma SeamSkipFront(a: string, b: string, pat: string)
    requires pat != [] && a != []
    requires forall j :: 0 <= j < |a| < j + |pat| ==> !OccursAt(a + b, pat, j)
    requires |a + b| < |pat| || (a + b)[..|pat|] != pat
    ensures |a| < |pat| || a[..|pat|] != pat
    ensures (a + b)[0] == a[0] && (a + b)[1..] == a[1..] + b
    ensures forall j :: 0 <= j < |a[1..]| < j + |pat| ==> !OccursAt(a[1..] + b, pat, j)
  {
    if |a| >= |pat| {
      assert a[..|pat|] == (a + b)[..|pat|];
    }
    assert a == [a[0]] + a[1..];
    SeamShift([a[0]], a[1..], b, pat);
  }

  /** The first scanning step over `a + b` is the first step over `a`. */
  lemma FrontStep(a: string, b: string, pat: string, rep: string) returns (head: string, rest: string)
    requires pat != [] && a != []
    requires forall j :: 0 <= j < |a| < j + |pat| ==> !OccursAt(a + b, pat, j)
    ensures |rest| < |a|
    ensures forall j :: 0 <= j < |rest| < j + |pat| ==> !OccursAt(rest + b, pat, j)
    ensures ReplaceAll(a + b, pat, rep) == head + ReplaceAll(rest + b, pat, rep)
    ensures ReplaceAll(a, pat, rep) == head + ReplaceAll(rest, pat, rep)
  {
    if |a + b| >= |pat| && (a + b)[..|pat|] == pat {
      SeamMatchFront(a, b, pat);
      head, rest := rep, a[|pat|..];
      UnfoldMatch(a + b, pat, rep);
      UnfoldMatch(a, pat, rep);
    } else {
      SeamSkipFront(a, b, pat);
      head, rest := [a[0]], a[1..];
      UnfoldSkip(a + b, pat, rep);
      UnfoldSkip(a, pat, rep);
    }
  }

  /**
   * Replacement distributes over a concatenation when no occurrence of the
   * pattern straddles the seam.
   */
  lemma {:induction false} ReplaceAllConcat(a: string, b: string, pat: string, rep: string)
    requires pat != []
    requires forall j :: 0 <= j < |a| < j + |pat| ==> !OccursAt(a + b, pat, j)
    ensures ReplaceAll(a + b, pat, rep) == ReplaceAll(a, pat, rep) + ReplaceAll(b, pat, rep)
    decreases |a|
  {
    if a == [] {
      assert a + b == b;
    } else {
      var head, rest := FrontStep(a, b, pat, rep);
      ReplaceAllConcat(rest, b, pat, rep);
      var x, y := ReplaceAll(rest, pat, rep), ReplaceAll(b, pat, rep);
      assert head + (x + y) == (head + x) + y;
    }
  }

  /** Match counts add up over a concatenation when no match straddles the seam. */
  lemma {:induction false} CountConcat(a: string, b: string, pat: string)
    requires pat != []
    requires forall j :: 0 <= j < |a| < j + |pat| ==> !OccursAt(a + b, pat, j)
    ensures Count(a + b, pat) == Count(a, pat) + Count(b, pat)
    decreases |a|
  {
    if a == [] {
      assert a + b == b;
    } else if |a + b| >= |pat| && (a + b)[..|pat|] == pat {
      SeamMatchFront(a, b, pat);
      CountConcat(a[|pat|..], b, pat);
      UnfoldMatch(a + b, pat, "");
      UnfoldMatch(a, pat, "");
    } else {
      SeamSkipFront(a, b, pat);
      CountConcat(a[1..], b, pat);
      UnfoldSkip(a + b, pat, "");
      UnfoldSkip(a, pat, "");
    }
  }

  /**
   * Text that no occurrence of the pattern overlaps is carried into the
   * result unchanged.
   */
  lemma ReplaceAllKeeps(s: string, pat: string, rep: string, m: string, k: int)
    requires pat != [] && m != []
    requires OccursAt(s, m, k)
    requires forall j :: OccursAt(s, pat, j) ==> j + |pat| <= k || k + |m| <= j
    ensures OccursAt(ReplaceAll(s, pat, rep), m, |ReplaceAll(s[..k], pat, rep)|)
  {
    var a, mc := s[..k], s[k..];
    var c := s[k + |m|..];
    assert s == a + mc;
    assert mc == m + c;
    ReplaceAllConcat(a, mc, pat, rep);
    forall j | 0 <= j < |m| < j + |pat|
      ensures !OccursAt(m + c, pat, j)
    {
      OccursAtShift(a, mc, pat, j);
    }
    ReplaceAllConcat(m, c, pat, rep);
    if Occurs(m, pat) {
      var j :| 0 <= j <= |m| && OccursAt(m, pat, j);
      OccursAtExtend(m, c, pat, j);
      OccursAtShift(a, mc, pat, j);
      assert false;
    }
    ReplaceAllAbsent(m, pat, rep);
    OccursMiddle(ReplaceAll(a, pat, rep), m, ReplaceAll(c, pat, rep));
  }

  /** `ReplaceAllKeeps` for an occurrence anywhere. */
  lemma ReplaceAllKeepsOccurs(s: string, pat: string, rep: string, m: string)
    requires pat != [] && m != []
    requires Occurs(s, m)
    requires forall j, k :: OccursAt(s, pat, j) && OccursAt(s, m, k) ==> j + |pat| <= k || k + |m| <= j
    ensures Occurs(ReplaceAll(s, pat, rep), m)
  {
    var k :| 0 <= k <= |s| && OccursAt(s, m, k);
    ReplaceAllKeeps(s, pat, rep, m, k);
  }

  // ---------------------------------------------------------------------
  // Placeholders
  // ---------------------------------------------------------------------

  /** In a placeholder with a brace-free name, `{` appears only at indices 0 and 1. */
  lemma PlaceholderOpenBraces(name: string)
    requires BraceFree(name)
    ensures forall i :: 2 <= i < |Placeholder(name)| ==> Placeholder(name)[i] != '{'
  {
    var p := Placeholder(name);
    forall i | 2 <= i < |p|
      ensures p[i] != '{'
    {
      if i < |p| - 2 {
        assert p[i] == name[i - 2];
      }
    }
  }

  /** One placeholder occurs inside another only if it is the same placeholder. */
  lemma PlaceholderInPlaceholder(x: string, y: string)
    requires BraceFree(x) && BraceFree(y)
    requires Occurs(Placeholder(x), Placeholder(y))
    ensures x == y
  {
    var px, py := Placeholder(x), Placeholder(y);
    var k :| 0 <= k <= |px| && OccursAt(px, py, k);
    PlaceholderOpenBraces(x);
    OccursAtChar(px, py, k, 0);
    OccursAtChar(px, py, k, 1);
    assert k == 0;
    if |y| < |x| {
      OccursAtChar(px, py, 0, |y| + 2);
      assert false;
    }
    assert px[2..|px| - 2] == py[2..|py| - 2];
  }

  /**
   * A placeholder whose name does not start with `#` or `/` never overlaps a
   * block marker `{{#name}}` or `{{/name}}`.
   */
  lemma PlaceholderMarkerDisjoint(s: string, y: string, x: string, j: int, k: int)
    requires BraceFree(y) && (y == [] || (y[0] != '#' && y[0] != '/'))
    requires |x| >= 1 && (x[0] == '#' || x[0] == '/') && BraceFree(x)
    requires OccursAt(s, Placeholder(y), j) && OccursAt(s, Placeholder(x), k)
    ensures j + |Placeholder(y)| <= k || k + |Placeholder(x)| <= j
  {
    var t, m := Placeholder(y), Placeholder(x);
    PlaceholderOpenBraces(y);
    PlaceholderOpenBraces(x);
    if j < k + |m| && k < j + |t| {
      assert m[2] == x[0];
      assert t[2] != '#' && t[2] != '/' by {
        if y != [] { assert t[2] == y[0]; }
      }
      if j == k {
        OccursAtChar(s, t, j, 2);
        OccursAtChar(s, m, k, 2);
      } else if j == k + 1 {
        OccursAtChar(s, t, j, 1);
        OccursAtChar(s, m, k, 2);
      } else if j > k + 1 {
        OccursAtChar(s, t, j, 0);
        OccursAtChar(s, m, k, j - k);
      } else {
        OccursAtChar(s, m, k, 0);
        OccursAtChar(s, t, j, k - j);
        OccursAtChar(s, m, k, 1);
        if k - j >= 2 {
          assert false;
        }
        OccursAtChar(s, t, j, 2);
      }
    }
  }
}
