/**
 * The JavaScript string operations the application relies on, over
 * `seq<char>`: the `\s` class and `String.prototype.trim`, `indexOf` /
 * `includes`, line splitting, `toLowerCase` (ASCII letters only) and the
 * decimal rendering of a non-negative integer in a template literal.
 */
module Text {
  import opened Wrappers

  /** The WhiteSpace and LineTerminator code points of ECMAScript: what `\s` matches and `trim` removes. */
  predicate IsWhite(c: char) {
    || c == ' ' || c == '\t' || c == '\n' || c == '\U{000B}' || c == '\U{000C}' || c == '\r'
    || c == '\U{00A0}' || c == '\U{1680}' || ('\U{2000}' <= c <= '\U{200A}')
    || c == '\U{2028}' || c == '\U{2029}' || c == '\U{202F}' || c == '\U{205F}'
    || c == '\U{3000}' || c == '\U{FEFF}'
  }

  predicate AllWhite(s: string) {
    forall i :: 0 <= i < |s| ==> IsWhite(s[i])
  }

  /** Every character of `s` from index `lo` up to (not including) `hi` is a blank. */
  predicate WhiteBetween(s: string, lo: int, hi: int) {
    0 <= lo <= hi <= |s| && forall i :: lo <= i < hi ==> IsWhite(s[i])
  }

  /** Where the run of blanks that starts at index `i` ends. */
  function BlankRunEnd(s: string, i: nat): (j: nat)
    requires i <= |s|
    decreases |s| - i
    ensures i <= j <= |s| && WhiteBetween(s, i, j)
    ensures j == |s| || !IsWhite(s[j])
  {
    if i < |s| && IsWhite(s[i]) then BlankRunEnd(s, i + 1) else i
  }

  /** Where the run of blanks that ends at index `j` starts, looking no further back than `lo`. */
  function BlankRunStart(s: string, lo: nat, j: nat): (k: nat)
    requires lo <= j <= |s|
    ensures lo <= k <= j && WhiteBetween(s, k, j)
    ensures k == lo || !IsWhite(s[k - 1])
  {
    if lo < j && IsWhite(s[j - 1]) then BlankRunStart(s, lo, j - 1) else j
  }

  /** A run of blanks followed by a non-blank (or the end) is the run `BlankRunEnd` finds. */
  lemma {:induction false} BlankRunEndAt(s: string, i: nat, j: nat)
    requires i <= j <= |s| && WhiteBetween(s, i, j)
    requires j == |s| || !IsWhite(s[j])
    ensures BlankRunEnd(s, i) == j
    decreases j - i
  {
    if i < j {
      BlankRunEndAt(s, i + 1, j);
    }
  }

  /** A run of blanks preceded by a non-blank (or the bound) is the run `BlankRunStart` finds. */
  lemma {:induction false} BlankRunStartAt(s: string, lo: nat, k: nat, j: nat)
    requires lo <= k <= j <= |s| && WhiteBetween(s, k, j)
    requires k == lo || !IsWhite(s[k - 1])
    ensures BlankRunStart(s, lo, j) == k
    decreases j - k
  {
    if k < j {
      BlankRunStartAt(s, lo, k, j - 1);
    }
  }

  /** What `\s*` consumes: the longest all-whitespace prefix is dropped. */
  function SkipWhite(s: string): (r: string)
    ensures |r| <= |s| && r == s[|s| - |r|..]
    ensures WhiteBetween(s, 0, |s| - |r|)
    ensures r == [] || !IsWhite(r[0])
  {
    s[BlankRunEnd(s, 0)..]
  }

  /** `\s*` in front of a non-blank character consumes exactly the blank run. */
  lemma SkipWhiteOver(w: string, x: string)
    requires AllWhite(w)
    requires x == [] || !IsWhite(x[0])
    ensures SkipWhite(w + x) == x
  {
    var s := w + x;
    assert WhiteBetween(s, 0, |w|) by {
      forall k | 0 <= k < |w| ensures IsWhite(s[k]) {
        assert s[k] == w[k];
      }
    }
    if x != [] {
      assert s[|w|] == x[0];
    }
    BlankRunEndAt(s, 0, |w|);
    assert s[|w|..] == x;
  }

  /**
   * `r` is `s` with its blank ends cut: the slice of `s` that starts at `a`,
   * with only blanks before and after it, and neither starting nor ending
   * with a blank.
   */
  predicate TrimmedFrom(s: string, a: nat, r: string) {
    && a + |r| <= |s| && r == s[a..a + |r|]
    && WhiteBetween(s, 0, a) && WhiteBetween(s, a + |r|, |s|)
    && (r == [] || (!IsWhite(r[0]) && !IsWhite(r[|r| - 1])))
  }

  /** `String.prototype.trim`: the input with its leading and trailing blanks cut. */
  function Trim(s: string): (r: string)
    ensures |r| <= |s|
  {
    var a := BlankRunEnd(s, 0);
    s[a..BlankRunStart(s, a, |s|)]
  }

  /** What `Trim` returns is the input with its blank ends cut. */
  lemma TrimMeaning(s: string)
    ensures TrimmedFrom(s, BlankRunEnd(s, 0), Trim(s))
  {
    var a := BlankRunEnd(s, 0);
    var b := BlankRunStart(s, a, |s|);
    var r := Trim(s);
    assert r == s[a..b];
    if r != [] {
      assert r[0] == s[a];
      assert r[|r| - 1] == s[b - 1];
    }
  }

  /** Only one slice of `s` is `s` with its blank ends cut, so `Trim` is characterised by `TrimmedFrom`. */
  lemma TrimUnique(s: string, a: nat, r: string)
    requires TrimmedFrom(s, a, r)
    ensures r == Trim(s)
  {
    var e := a + |r|;
    if r == [] {
      assert WhiteBetween(s, 0, |s|) by {
        forall i | 0 <= i < |s| ensures IsWhite(s[i]) {
          if i < a {
            assert WhiteBetween(s, 0, a);
          } else {
            assert WhiteBetween(s, e, |s|);
          }
        }
      }
      BlankRunEndAt(s, 0, |s|);
    } else {
      assert s[a] == r[0];
      BlankRunEndAt(s, 0, a);
      assert s[e - 1] == r[|r| - 1];
      BlankRunStartAt(s, a, e, |s|);
    }
  }

  /** Trimming ignores blanks already skipped. */
  lemma TrimAfterSkipWhite(s: string)
    ensures Trim(SkipWhite(s)) == Trim(s)
  {
    TrimMeaning(s);
    var a := BlankRunEnd(s, 0);
    var t := s[a..];
    var r := Trim(s);
    assert t[0..|r|] == r;
    assert WhiteBetween(t, |r|, |t|) by {
      forall k | |r| <= k < |t| ensures IsWhite(t[k]) {
        assert t[k] == s[a + k];
      }
    }
    TrimUnique(t, 0, r);
  }

  /** A leading blank makes no difference to the trim. */
  lemma TrimLeadingBlank(c: char, s: string)
    requires IsWhite(c)
    ensures Trim([c] + s) == Trim(s)
  {
    TrimMeaning(s);
    var a := BlankRunEnd(s, 0);
    var r := Trim(s);
    var cs := [c] + s;
    assert cs[a + 1..a + 1 + |r|] == r;
    assert WhiteBetween(cs, 0, a + 1) by {
      forall k | 0 <= k < a + 1 ensures IsWhite(cs[k]) {
        if k > 0 {
          assert cs[k] == s[k - 1];
        }
      }
    }
    assert WhiteBetween(cs, a + 1 + |r|, |cs|) by {
      forall k | a + 1 + |r| <= k < |cs| ensures IsWhite(cs[k]) {
        assert cs[k] == s[k - 1];
      }
    }
    TrimUnique(cs, a + 1, r);
  }

  /** Trimming adds no character: one absent from the input is absent from the result. */
  lemma TrimKeepsOut(s: string, c: char)
    requires c !in s
    ensures c !in Trim(s)
  {
    TrimMeaning(s);
    var t := Trim(s);
    var a := BlankRunEnd(s, 0);
    forall k | 0 <= k < |t| ensures t[k] != c {
      assert t[k] == s[a + k];
    }
  }

  /** A string that neither starts nor ends with a blank is its own trim. */
  lemma TrimOfTrimmed(s: string)
    requires s == [] || (!IsWhite(s[0]) && !IsWhite(s[|s| - 1]))
    ensures Trim(s) == s
  {
    assert s[0..|s|] == s;
    TrimUnique(s, 0, s);
  }

  /** What `[^\n]*` consumes: everything up to (not including) the first newline. */
  function TakeLine(s: string): (r: string)
    ensures |r| <= |s| && r == s[..|r|]
    ensures '\n' !in r
    ensures |r| == |s| || s[|r|] == '\n'
  {
    if s == [] || s[0] == '\n' then [] else [s[0]] + TakeLine(s[1..])
  }

  /** `[^\n]*` stops at the end of a line-free prefix followed by a newline or the end of the text. */
  lemma {:induction false} TakeLineOver(line: string, rest: string)
    requires '\n' !in line
    requires rest == [] || rest[0] == '\n'
    ensures TakeLine(line + rest) == line
  {
    if line != [] {
      assert (line + rest)[1..] == line[1..] + rest;
      assert '\n' !in line[1..] by {
        forall i | 0 <= i < |line[1..]| ensures line[1..][i] != '\n' {
          assert line[1..][i] == line[i + 1];
        }
      }
      TakeLineOver(line[1..], rest);
    }
  }

  /** `p` occurs in `s` starting at index `i`. */
  predicate OccursAt(s: string, p: string, i: int) {
    0 <= i && i + |p| <= |s| && s[i..i + |p|] == p
  }

  ghost predicate Contains(s: string, p: string) {
    exists i :: OccursAt(s, p, i)
  }

  /** A text contains its own prefix. */
  lemma PrefixContained(p: string, rest: string)
    ensures Contains(p + rest, p)
  {
    assert (p + rest)[0..|p|] == p;
    assert OccursAt(p + rest, p, 0);
  }

  function IndexFrom(s: string, p: string, i: nat): (r: Option<nat>)
    requires i <= |s|
    decreases |s| - i
    ensures r.Some? ==> i <= r.value && OccursAt(s, p, r.value)
    ensures r.Some? ==> forall j :: i <= j < r.value ==> !OccursAt(s, p, j)
    ensures r.None? ==> forall j :: i <= j ==> !OccursAt(s, p, j)
  {
    if i + |p| > |s| then None
    else if s[i..i + |p|] == p then Some(i)
    else IndexFrom(s, p, i + 1)
  }

  /** `s.indexOf(p)`: the first index at which `p` occurs, if any. */
  function IndexOf(s: string, p: string): (r: Option<nat>)
    ensures r.Some? ==> OccursAt(s, p, r.value) && forall j :: 0 <= j < r.value ==> !OccursAt(s, p, j)
    ensures r.None? <==> !Contains(s, p)
  {
    IndexFrom(s, p, 0)
  }

  /** `s.includes(p)` */
  predicate Includes(s: string, p: string)
    ensures Includes(s, p) <==> Contains(s, p)
  {
    IndexOf(s, p).Some?
  }

  /** If `p` is absent from `a` and its first character occurs nowhere else in `p`, its first occurrence in `a + p + b` is right after `a`. */
  lemma {:induction false} FirstOccurrenceAfter(a: string, p: string, b: string)
    requires p != [] && p[0] !in p[1..]
    requires !Contains(a, p)
    ensures IndexOf(a + p + b, p) == Some(|a|)
  {
    var s := a + p + b;
    assert OccursAt(s, p, |a|) by { assert s[|a|..|a| + |p|] == p; }
    forall j | 0 <= j < |a|
      ensures !OccursAt(s, p, j)
    {
      if j + |p| <= |a| {
        assert s[j..j + |p|] == a[j..j + |p|];
        assert !OccursAt(a, p, j);
      } else {
        var k := |a| - j;
        assert p[1..][k - 1] == p[k];
        assert s[j..j + |p|][k] == p[0] != p[k];
      }
    }
  }

  /** An occurrence of a pattern that lacks `c` cannot span a `c`: it lies wholly on one side. */
  lemma {:induction false} ContainsAcross(a: string, c: char, b: string, p: string)
    requires c !in p
    requires !Contains(a, p) && !Contains(b, p)
    ensures !Contains(a + [c] + b, p)
  {
    var s := a + [c] + b;
    forall i | 0 <= i && i + |p| <= |s|
      ensures !OccursAt(s, p, i)
    {
      if i + |p| <= |a| {
        assert s[i..i + |p|] == a[i..i + |p|];
        assert !OccursAt(a, p, i);
      } else if i > |a| {
        assert s[i..i + |p|] == b[i - |a| - 1..i - |a| - 1 + |p|];
        assert !OccursAt(b, p, i - |a| - 1);
      } else {
        assert s[i..i + |p|][|a| - i] == c != p[|a| - i];
      }
    }
  }

  /** A pattern holding a character the text lacks does not occur in it. */
  lemma {:induction false} MissingCharNotContained(s: string, p: string, c: char)
    requires c in p && c !in s
    ensures !Contains(s, p)
  {
    var k :| 0 <= k < |p| && p[k] == c;
    forall i | 0 <= i && i + |p| <= |s|
      ensures !OccursAt(s, p, i)
    {
      assert s[i..i + |p|][k] == s[i + k] != p[k];
    }
  }

  /** A pattern whose first character appears in the text only where the pattern no longer fits does not occur in it. */
  lemma {:induction false} FirstCharTooLate(s: string, p: string)
    requires p != [] && |p| <= |s|
    requires p[0] !in s[..|s| - |p| + 1]
    ensures !Contains(s, p)
  {
    forall i | 0 <= i && i + |p| <= |s|
      ensures !OccursAt(s, p, i)
    {
      assert s[i..i + |p|][0] == s[..|s| - |p| + 1][i] != p[0];
    }
  }

  /** A pattern longer than the text does not occur in it. */
  lemma ShorterNotContained(s: string, p: string)
    requires |s| < |p|
    ensures !Contains(s, p)
  {
  }

  function LowerChar(c: char): (r: char)
    ensures 'A' <= c <= 'Z' ==> 'a' <= r <= 'z' && r as int == c as int + 32
    ensures !('A' <= c <= 'Z') ==> r == c
  {
    if 'A' <= c <= 'Z' then (c as int + 32) as char else c
  }

  /** `toLowerCase`, restricted to the ASCII letters. */
  function Lower(s: string): (r: string)
    ensures |r| == |s|
    ensures forall i :: 0 <= i < |s| ==> r[i] == LowerChar(s[i])
  {
    seq(|s|, i requires 0 <= i < |s| => LowerChar(s[i]))
  }

  /** Lower-casing twice is lower-casing once. */
  lemma LowerIdempotent(s: string)
    ensures Lower(Lower(s)) == Lower(s)
  {
  }

  function Digit(d: nat): (c: char)
    requires d < 10
    ensures '0' <= c <= '9'
  {
    "0123456789"[d]
  }

  /** The decimal rendering of `n`, as a template literal prints a non-negative integer. */
  function NatToString(n: nat): (r: string)
    ensures r != []
    ensures forall i :: 0 <= i < |r| ==> '0' <= r[i] <= '9'
    ensures r[0] == '0' ==> n == 0 && r == "0"
  {
    if n < 10 then [Digit(n)] else NatToString(n / 10) + [Digit(n % 10)]
  }

  /** The value of a string of decimal digits. */
  function DigitsValue(s: string): nat
    requires forall i :: 0 <= i < |s| ==> '0' <= s[i] <= '9'
  {
    if s == [] then 0 else 10 * DigitsValue(s[..|s| - 1]) + (s[|s| - 1] as int - '0' as int)
  }

  /** Reading back the rendering of a number gives the number. */
  lemma {:induction false} NatToStringRoundTrip(n: nat)
    ensures DigitsValue(NatToString(n)) == n
  {
    var r := NatToString(n);
    if n >= 10 {
      NatToStringRoundTrip(n / 10);
      assert r[..|r| - 1] == NatToString(n / 10);
      assert "0123456789"[n % 10] as int - '0' as int == n % 10;
    } else {
      assert "0123456789"[n] as int - '0' as int == n;
    }
  }
}
