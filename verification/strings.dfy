/**
  JavaScript string behaviour that the two edge functions rely on: global
  replacement of a literal pattern (`s.replace(/lit/g, v)`), `Array.join`,
  and template-literal interpolation of possibly-null values.
 */
module Strings {

  /** A JSON string value as the handlers receive it from the database or an API:
      either a string or `null`. */
  datatype JsString = Str(s: string) | Null

  /** What `${v}` produces inside a template literal. */
  function Interpolated(v: JsString): string
  {
    match v
    case Str(s) => s
    case Null => "null"
  }

  /** What `Array.prototype.join` produces for one element: null becomes "". */
  function JoinForm(v: JsString): string
  {
    match v
    case Str(s) => s
    case Null => ""
  }

  function JoinForms(vs: seq<JsString>): (r: seq<string>)
    ensures |r| == |vs|
    ensures forall i :: 0 <= i < |vs| ==> r[i] == JoinForm(vs[i])
  {
    if vs == [] then [] else [JoinForm(vs[0])] + JoinForms(vs[1..])
  }

  /** `xs.join(sep)` for an array of strings. */
  function Join(xs: seq<string>, sep: string): string
  {
    if |xs| == 0 then ""
    else if |xs| == 1 then xs[0]
    else xs[0] + sep + Join(xs[1..], sep)
  }

  /** `vs.join(sep)` for an array of JSON string values. */
  function JoinValues(vs: seq<JsString>, sep: string): string
  {
    Join(JoinForms(vs), sep)
  }

  /** True when `needle` occurs in `hay` starting at index `i`. */
  predicate OccursAt(hay: string, needle: string, i: int)
  {
    0 <= i && i + |needle| <= |hay| && hay[i..i + |needle|] == needle
  }

  predicate Contains(hay: string, needle: string)
  {
    exists i :: 0 <= i <= |hay| && OccursAt(hay, needle, i)
  }

  predicate NoChar(s: string, c: char)
  {
    forall i :: 0 <= i < |s| ==> s[i] != c
  }

  /** A string contains whatever is written in the middle of it. */
  lemma ContainsInfix(a: string, x: string, b: string)
    ensures Contains(a + x + b, x)
  {
    assert (a + x + b)[|a|..|a| + |x|] == x;
    assert OccursAt(a + x + b, x, |a|);
  }

  /** A string free of `c` contains no word that starts with `c`. */
  lemma NoCharExcludes(hay: string, needle: string, c: char)
    requires NoChar(hay, c) && |needle| > 0 && needle[0] == c
    ensures !Contains(hay, needle)
  {
  }

  /** Containment is transitive. */
  lemma ContainsTrans(a: string, b: string, c: string)
    requires Contains(a, b) && Contains(b, c)
    ensures Contains(a, c)
  {
    var i :| 0 <= i <= |a| && OccursAt(a, b, i);
    var j :| 0 <= j <= |b| && OccursAt(b, c, j);
    forall k | 0 <= k < |c| ensures a[i + j + k] == c[k] {
      assert a[i..i + |b|][j + k] == a[i + j + k];
      assert b[j..j + |c|][k] == b[j + k];
    }
    assert a[i + j..i + j + |c|] == c;
    assert OccursAt(a, c, i + j);
  }

  /**
    Where element `i` sits in a join: everything before it is the join of the
    prefix followed by one separator, everything after it is one separator
    followed by the join of the suffix.
   */
  lemma {:induction false} JoinSplit(xs: seq<string>, sep: string, i: nat)
    requires i < |xs|
    ensures Join(xs, sep)
      == (if i == 0 then "" else Join(xs[..i], sep) + sep)
         + xs[i]
         + (if i == |xs| - 1 then "" else sep + Join(xs[i + 1..], sep))
  {
    if i == 0 {
      if |xs| > 1 {
        assert xs[1..] == xs[i + 1..];
      }
    } else {
      var tail := xs[1..];
      JoinSplit(tail, sep, i - 1);
      assert tail[..i - 1] == xs[1..i];
      assert tail[i..] == xs[i + 1..];
      assert tail[i - 1] == xs[i];
      if i == 1 {
        assert Join(xs[..i], sep) == xs[0];
      } else {
        assert xs[..i][1..] == xs[1..i];
        assert Join(xs[..i], sep) == xs[0] + sep + Join(xs[1..i], sep);
      }
    }
  }

  /** Every element of a join appears in it, at a position after all earlier elements. */
  lemma JoinContainsEach(xs: seq<string>, sep: string, i: nat)
    requires i < |xs|
    ensures OccursAt(Join(xs, sep), xs[i], if i == 0 then 0 else |Join(xs[..i], sep)| + |sep|)
  {
    JoinSplit(xs, sep, i);
    var pre := if i == 0 then "" else Join(xs[..i], sep) + sep;
    var post := if i == |xs| - 1 then "" else sep + Join(xs[i + 1..], sep);
    var j := |pre|;
    assert Join(xs, sep) == pre + xs[i] + post;
    assert Join(xs, sep)[j..j + |xs[i]|] == xs[i];
  }

  /** A join of one element is that element; a join of pieces free of `c`, with a
      separator free of `c`, is free of `c`. */
  lemma {:induction false} JoinNoChar(xs: seq<string>, sep: string, c: char)
    requires forall i :: 0 <= i < |xs| ==> NoChar(xs[i], c)
    requires NoChar(sep, c)
    ensures NoChar(Join(xs, sep), c)
  {
    if |xs| > 1 {
      JoinNoChar(xs[1..], sep, c);
      var rest := Join(xs[1..], sep);
      assert Join(xs, sep) == xs[0] + sep + rest;
      forall k | 0 <= k < |Join(xs, sep)| ensures Join(xs, sep)[k] != c {
        if k < |xs[0]| {
          assert Join(xs, sep)[k] == xs[0][k];
        } else if k < |xs[0]| + |sep| {
          assert Join(xs, sep)[k] == sep[k - |xs[0]|];
        } else {
          assert Join(xs, sep)[k] == rest[k - |xs[0]| - |sep|];
        }
      }
    }
  }

  /**
    `s.replace(/pat/g, rep)` for a pattern that matches only the literal `pat`:
    scan left to right, replace each non-overlapping occurrence, and never
    rescan the replacement text. The replacement is taken literally.
   */
  function ReplaceAll(s: string, pat: string, rep: string): string
    requires |pat| > 0
    decreases |s|
  {
    if |s| < |pat| then s
    else if s[..|pat|] == pat then rep + ReplaceAll(s[|pat|..], pat, rep)
    else [s[0]] + ReplaceAll(s[1..], pat, rep)
  }

  /** Text that cannot start an occurrence passes through replacement unchanged. */
  lemma {:induction false} ReplaceAllSkips(a: string, b: string, pat: string, rep: string)
    requires |pat| > 0
    requires NoChar(a, pat[0])
    ensures ReplaceAll(a + b, pat, rep) == a + ReplaceAll(b, pat, rep)
  {
    if a == [] {
      assert a + b == b;
    } else {
      var s := a + b;
      assert s[1..] == a[1..] + b;
      ReplaceAllSkips(a[1..], b, pat, rep);
      if |s| >= |pat| {
        assert s[..|pat|][0] == a[0] != pat[0];
        assert ReplaceAll(s, pat, rep) == [a[0]] + ReplaceAll(a[1..] + b, pat, rep);
      } else {
        assert ReplaceAll(s, pat, rep) == s;
        assert ReplaceAll(b, pat, rep) == b;
      }
      assert [a[0]] + a[1..] == a;
    }
  }

  /** An occurrence at the very front is replaced. */
  lemma ReplaceAllAtFront(b: string, pat: string, rep: string)
    requires |pat| > 0
    ensures ReplaceAll(pat + b, pat, rep) == rep + ReplaceAll(b, pat, rep)
  {
    var s := pat + b;
    assert s[..|pat|] == pat;
    assert s[|pat|..] == b;
  }

  /** Without a match at the front, the first character is kept and scanning moves on. */
  lemma ReplaceAllStep(s: string, pat: string, rep: string)
    requires |pat| > 0 && |s| > 0
    requires |s| < |pat| || s[..|pat|] != pat
    ensures ReplaceAll(s, pat, rep) == [s[0]] + ReplaceAll(s[1..], pat, rep)
  {
    if |s| < |pat| {
      assert ReplaceAll(s[1..], pat, rep) == s[1..];
      assert [s[0]] + s[1..] == s;
    }
  }

  /**
    A word `x` that starts like the pattern but differs from it somewhere within
    both lengths, and has no further pattern-start character, passes through
    unchanged: it neither matches nor hides a match.
   */
  lemma ReplaceAllSkipsWord(x: string, b: string, pat: string, rep: string, d: nat)
    requires |pat| > 0 && |x| > 0
    requires d < |x| && d < |pat| && x[d] != pat[d]
    requires NoChar(x[1..], pat[0])
    ensures ReplaceAll(x + b, pat, rep) == x + ReplaceAll(b, pat, rep)
  {
    var s := x + b;
    var t := x[1..];
    NoMatchAtFront(x, b, pat, d);
    ReplaceAllStep(s, pat, rep);
    assert s[1..] == t + b;
    ReplaceAllSkips(t, b, pat, rep);
    calc {
      ReplaceAll(s, pat, rep);
      [s[0]] + ReplaceAll(t + b, pat, rep);
      [x[0]] + (t + ReplaceAll(b, pat, rep));
      { assert [x[0]] + t == x; }
      x + ReplaceAll(b, pat, rep);
    }
  }

  /** A word that differs from the pattern within both lengths rules out a
      match at the front of any text it starts. */
  lemma NoMatchAtFront(x: string, b: string, pat: string, d: nat)
    requires d < |x| && d < |pat| && x[d] != pat[d]
    ensures |x + b| < |pat| || (x + b)[..|pat|] != pat
  {
    if |x + b| >= |pat| {
      assert (x + b)[..|pat|][d] == x[d];
    }
  }
}
