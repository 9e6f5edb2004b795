/**
 * The JavaScript string operations the routing and gating code relies on,
 * with their exact semantics: `startsWith`, `endsWith`, `indexOf` (first
 * occurrence), `replace` with a string pattern (only the FIRST occurrence is
 * replaced), `trim`, template interpolation of a possibly undefined value,
 * and MongoDB's `$toLower`/`$indexOfCP` substring test.
 */
module Strings {
  import opened Base

  predicate StartsWith(s: string, p: string) {
    |p| <= |s| && s[..|p|] == p
  }

  predicate EndsWith(s: string, p: string) {
    |p| <= |s| && s[|s| - |p|..] == p
  }

  /** `p` occurs in `s` starting at index `i`. */
  predicate OccursAt(s: string, p: string, i: int) {
    0 <= i && i + |p| <= |s| && s[i..i + |p|] == p
  }

  /** First index at or after `from` where `p` occurs, or -1. */
  function IndexOfFrom(s: string, p: string, from: nat): (r: int)
    requires from <= |s|
    decreases |s| - from
    ensures r == -1 || (from <= r && OccursAt(s, p, r))
    ensures r == -1 ==> forall i :: from <= i ==> !OccursAt(s, p, i)
    ensures r >= 0 ==> forall i :: from <= i < r ==> !OccursAt(s, p, i)
  {
    if from + |p| > |s| then -1
    else if s[from..from + |p|] == p then from
    else
      assert |p| > 0;
      IndexOfFrom(s, p, from + 1)
  }

  /** `s.indexOf(p)`: the first occurrence of `p` in `s`, or -1 when there is none. */
  function IndexOf(s: string, p: string): (r: int)
    ensures -1 <= r
    ensures r == -1 <==> forall i :: !OccursAt(s, p, i)
    ensures r >= 0 ==> OccursAt(s, p, r) && forall i :: 0 <= i < r ==> !OccursAt(s, p, i)
  {
    IndexOfFrom(s, p, 0)
  }

  /** `s.replace(p, "")`: removes the first occurrence of `p`, if any. */
  function RemoveFirst(s: string, p: string): string {
    var i := IndexOf(s, p);
    if i < 0 then s else s[..i] + s[i + |p|..]
  }

  /** Removing a pattern that does not occur leaves the string unchanged. */
  lemma RemoveAbsent(s: string, p: string)
    requires forall i :: !OccursAt(s, p, i)
    ensures RemoveFirst(s, p) == s
  {
  }

  /** A pattern longer than the string never occurs in it. */
  lemma {:induction false} TooLongAbsent(s: string, p: string)
    requires |s| < |p|
    ensures forall i :: !OccursAt(s, p, i)
    ensures RemoveFirst(s, p) == s
  {
  }

  /**
   * When the first character of `p` is not in `a`, the first occurrence of
   * `p` in `a + p` is the trailing one, so removing it gives back `a`.
   */
  lemma LabelThenPattern(a: string, p: string)
    requires |p| > 0 && p[0] !in a
    ensures IndexOf(a + p, p) == |a|
    ensures RemoveFirst(a + p, p) == a
  {
    var s := a + p;
    assert OccursAt(s, p, |a|) by { assert s[|a|..|a| + |p|] == p; }
    forall i | 0 <= i < |a|
      ensures !OccursAt(s, p, i)
    {
      assert s[i] == a[i];
      assert s[i] != p[0];
      if i + |p| <= |s| {
        assert s[i..i + |p|][0] == s[i];
      }
    }
    assert s[..|a|] == a;
  }

  /**
   * When the first character of `p` does not occur before `p` in `a + p + b`,
   * removing the first occurrence of `p` gives `a + b`.
   */
  lemma PrefixThenPattern(a: string, p: string, b: string)
    requires |p| > 0 && p[0] !in a
    ensures IndexOf(a + p + b, p) == |a|
    ensures RemoveFirst(a + p + b, p) == a + b
  {
    var s := a + p + b;
    assert OccursAt(s, p, |a|) by { assert s[|a|..|a| + |p|] == p; }
    forall i | 0 <= i < |a|
      ensures !OccursAt(s, p, i)
    {
      assert s[i] == a[i];
      assert s[i] != p[0];
      if i + |p| <= |s| {
        assert s[i..i + |p|][0] == s[i];
      }
    }
    assert s[..|a|] == a;
    assert s[|a| + |p|..] == b;
  }

  /** A string that starts with `p` has its first occurrence of `p` at 0. */
  lemma PatternFirst(p: string, rest: string)
    ensures IndexOf(p + rest, p) == 0
    ensures RemoveFirst(p + rest, p) == rest
  {
    assert OccursAt(p + rest, p, 0) by { assert (p + rest)[..|p|] == p; }
    assert (p + rest)[|p|..] == rest;
  }

  /** `s.includes(p)` and `s.indexOf(p) > -1`. */
  predicate Contains(s: string, p: string) {
    IndexOf(s, p) > -1
  }

  lemma ContainsIff(s: string, p: string)
    ensures Contains(s, p) <==> exists i :: OccursAt(s, p, i)
  {
  }

  /**
   * MongoDB's `$toLower` on one character. Its behaviour is only defined for
   * ASCII, so only 'A'..'Z' are mapped.
   */
  function LowerChar(c: char): (r: char)
    ensures 'A' <= c <= 'Z' ==> 'a' <= r <= 'z'
    ensures !('A' <= c <= 'Z') ==> r == c
  {
    if 'A' <= c <= 'Z' then (c as int + 32) as char else c
  }

  function ToLower(s: string): (r: string)
    ensures |r| == |s|
    ensures forall i :: 0 <= i < |s| ==> r[i] == LowerChar(s[i])
  {
    seq(|s|, i requires 0 <= i < |s| => LowerChar(s[i]))
  }

  /** Characters removed by `String.prototype.trim`: WhiteSpace and LineTerminator. */
  predicate IsJsSpace(c: char) {
    c == '\t' || c == '\n' || c == '\U{B}' || c == '\U{C}' || c == '\r' || c == ' '
    || c == '\U{A0}' || c == '\U{1680}' || ('\U{2000}' <= c <= '\U{200A}')
    || c == '\U{2028}' || c == '\U{2029}' || c == '\U{202F}' || c == '\U{205F}'
    || c == '\U{3000}' || c == '\U{FEFF}'
  }

  predicate IsBlank(s: string) {
    forall i :: 0 <= i < |s| ==> IsJsSpace(s[i])
  }

  function TrimStart(s: string): (r: string)
    ensures |r| <= |s| && r == s[|s| - |r|..]
    ensures r == [] || !IsJsSpace(r[0])
  {
    if s == [] || !IsJsSpace(s[0]) then s else TrimStart(s[1..])
  }

  function TrimEnd(s: string): (r: string)
    ensures |r| <= |s| && r == s[..|r|]
    ensures r == [] || !IsJsSpace(r[|r| - 1])
  {
    if s == [] || !IsJsSpace(s[|s| - 1]) then s else TrimEnd(s[..|s| - 1])
  }

  /** `s.trim()`. */
  function Trim(s: string): string {
    TrimEnd(TrimStart(s))
  }

  lemma {:induction false} TrimStartBlank(s: string)
    ensures TrimStart(s) == [] <==> IsBlank(s)
  {
    if s == [] {
    } else if !IsJsSpace(s[0]) {
      assert TrimStart(s) == s;
    } else {
      var t := s[1..];
      TrimStartBlank(t);
      assert TrimStart(s) == TrimStart(t);
      if IsBlank(t) {
        forall i | 0 <= i < |s| ensures IsJsSpace(s[i]) {
          if i > 0 { assert s[i] == t[i - 1]; }
        }
      } else {
        var j :| 0 <= j < |t| && !IsJsSpace(t[j]);
        assert s[j + 1] == t[j];
      }
    }
  }

  lemma {:induction false} TrimEndOfNonBlank(s: string)
    requires s == [] || !IsJsSpace(s[0])
    ensures TrimEnd(s) == [] <==> s == []
  {
    if s != [] && IsJsSpace(s[|s| - 1]) {
      assert |s| > 1;
      TrimEndOfNonBlank(s[..|s| - 1]);
    }
  }

  /** `s.trim() === ""` exactly when every character of `s` is white space. */
  lemma TrimEmptyIffBlank(s: string)
    ensures Trim(s) == "" <==> IsBlank(s)
  {
    TrimStartBlank(s);
    TrimEndOfNonBlank(TrimStart(s));
  }

  /** Template interpolation `${x}` of a string that may be undefined. */
  function Interpolate(x: Option<string>): (r: string)
    ensures x.Some? ==> r == x.value
    ensures x.None? ==> r == "undefined"
  {
    match x
    case Some(s) => s
    case None => "undefined"
  }

  /** JavaScript truthiness of a string that may be absent: absent and "" are falsy. */
  predicate Truthy(x: Option<string>) {
    x.Some? && x.value != ""
  }

  /** Index of the first element of `xs` that `s` starts with (`findIndex`), or -1. */
  function FindPrefixIndex(xs: seq<string>, s: string): (r: int)
    ensures -1 <= r < |xs|
    ensures r == -1 <==> forall i :: 0 <= i < |xs| ==> !StartsWith(s, xs[i])
    ensures r >= 0 ==> StartsWith(s, xs[r]) && forall i :: 0 <= i < r ==> !StartsWith(s, xs[i])
  {
    if xs == [] then -1
    else if StartsWith(s, xs[0]) then 0
    else
      var k := FindPrefixIndex(xs[1..], s);
      if k == -1 then -1 else k + 1
  }
}
