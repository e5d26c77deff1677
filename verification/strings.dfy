/**
 * The JavaScript string built-ins the source relies on, over UTF-16-free
 * `seq<char>` (every character in the source's keyword tables lies in the
 * Basic Multilingual Plane, so code units and characters coincide):
 * `includes`, `replace` with a string pattern and an empty replacement,
 * `startsWith`, `trim` and an ASCII `toLowerCase`.
 */
module Strings {
  import opened Wrappers

  /** `sub` occurs in `s` starting at index `i`. */
  predicate OccursAt(s: string, sub: string, i: nat) {
    i + |sub| <= |s| && s[i..i + |sub|] == sub
  }

  /** Leftmost occurrence of `sub` in `s` at or after `from` (`indexOf`). */
  function IndexFrom(s: string, sub: string, from: nat): (r: Option<nat>)
    ensures r.Some? ==> from <= r.value && OccursAt(s, sub, r.value)
    ensures r.Some? ==> forall j :: from <= j < r.value ==> !OccursAt(s, sub, j)
    ensures r.None? ==> forall j :: from <= j ==> !OccursAt(s, sub, j)
    decreases |s| - from
  {
    if from + |sub| > |s| then None
    else if s[from..from + |sub|] == sub then Some(from)
    else IndexFrom(s, sub, from + 1)
  }

  /** `s.indexOf(sub)`, as an option. */
  function IndexOf(s: string, sub: string): Option<nat> {
    IndexFrom(s, sub, 0)
  }

  /** `s.includes(sub)`. */
  predicate Contains(s: string, sub: string) {
    IndexOf(s, sub).Some?
  }

  /** An occurrence at a known position makes `includes` true. */
  lemma OccursAtContains(s: string, sub: string, i: nat)
    requires OccursAt(s, sub, i)
    ensures Contains(s, sub)
  {
    assert IndexFrom(s, sub, 0).Some?;
  }

  /** A string contains each of its suffixes. */
  lemma ContainsSuffix(p: string, w: string)
    ensures Contains(p + w, w)
  {
    assert (p + w)[|p|..|p| + |w|] == w;
    OccursAtContains(p + w, w, |p|);
  }

  /** A string contains each of its prefixes. */
  lemma ContainsPrefix(w: string, q: string)
    ensures Contains(w + q, w)
  {
    assert (w + q)[0..|w|] == w;
    OccursAtContains(w + q, w, 0);
  }

  /** `includes` is transitive: whatever a substring contains, the whole string contains. */
  lemma ContainsTransitive(s: string, a: string, b: string)
    requires Contains(s, a) && Contains(a, b)
    ensures Contains(s, b)
  {
    var i := IndexOf(s, a).value;
    var j := IndexOf(a, b).value;
    assert s[i..i + |a|] == a && a[j..j + |b|] == b;
    forall k | 0 <= k < |b|
      ensures s[i + j + k] == b[k]
    {
      assert s[i + j + k] == s[i..i + |a|][j + k] == a[j + k] == a[j..j + |b|][k];
    }
    assert s[i + j..i + j + |b|] == b;
    OccursAtContains(s, b, i + j);
  }

  /** `s.startsWith(prefix)`. */
  predicate StartsWith(s: string, prefix: string) {
    OccursAt(s, prefix, 0)
  }

  /**
   * `s.replace(pat, "")` for a string pattern: only the leftmost occurrence
   * is removed, and a string without an occurrence is returned unchanged.
   */
  function RemoveFirst(s: string, pat: string): (r: string)
    ensures !Contains(s, pat) ==> r == s
    ensures Contains(s, pat) ==> |r| == |s| - |pat|
    ensures Contains(s, pat) ==> s == r[..IndexOf(s, pat).value] + pat + r[IndexOf(s, pat).value..]
  {
    match IndexOf(s, pat)
    case None => s
    case Some(i) =>
      var r := s[..i] + s[i + |pat|..];
      assert s == s[..i] + s[i..i + |pat|] + s[i + |pat|..];
      assert r[..i] == s[..i] && r[i..] == s[i + |pat|..];
      r
  }

  /** The characters JavaScript's `trim` removes: WhiteSpace and LineTerminator of ECMA-262. */
  predicate IsWhitespace(c: char) {
    || c == '\t' || c == '\n' || c == '\U{B}' || c == '\U{C}' || c == '\r' || c == ' '
    || c == '\U{A0}' || c == '\U{1680}' || ('\U{2000}' <= c <= '\U{200A}')
    || c == '\U{2028}' || c == '\U{2029}' || c == '\U{202F}' || c == '\U{205F}'
    || c == '\U{3000}' || c == '\U{FEFF}'
  }

  /** Every character of `s` is whitespace (the empty string included). */
  predicate IsBlank(s: string) {
    forall i :: 0 <= i < |s| ==> IsWhitespace(s[i])
  }

  /** `trimStart`: the longest suffix that does not start with whitespace. */
  function TrimStart(s: string): (r: string)
    ensures |r| <= |s| && r == s[|s| - |r|..]
    ensures IsBlank(s[..|s| - |r|])
    ensures r == [] || !IsWhitespace(r[0])
  {
    if s == [] || !IsWhitespace(s[0]) then s
    else
      var r := TrimStart(s[1..]);
      assert s[..|s| - |r|] == [s[0]] + s[1..][..|s[1..]| - |r|];
      r
  }

  /** `trimEnd`: the longest prefix that does not end with whitespace. */
  function TrimEnd(s: string): (r: string)
    ensures |r| <= |s| && r == s[..|r|]
    ensures IsBlank(s[|r|..])
    ensures r == [] || !IsWhitespace(r[|r| - 1])
  {
    if s == [] || !IsWhitespace(s[|s| - 1]) then s
    else
      var r := TrimEnd(s[..|s| - 1]);
      assert s[|r|..] == s[..|s| - 1][|r|..] + [s[|s| - 1]];
      r
  }

  /** `trim`. */
  function Trim(s: string): string {
    TrimEnd(TrimStart(s))
  }

  /** `trim` yields the empty string exactly for blank strings (JavaScript's `!s.trim()`). */
  lemma TrimEmptyIff(s: string)
    ensures Trim(s) == [] <==> IsBlank(s)
  {
    var t := TrimStart(s);
    if Trim(s) == [] {
      assert IsBlank(t[0..]);
      assert s[..|s| - |t|] == s;
    }
  }

  /** `trim` leaves a string without leading or trailing whitespace alone. */
  lemma TrimUnchanged(s: string)
    requires s == [] || (!IsWhitespace(s[0]) && !IsWhitespace(s[|s| - 1]))
    ensures Trim(s) == s
  {
  }

  /** A trimmed string is left alone by a second `trim`. */
  lemma TrimIdempotent(s: string)
    ensures Trim(Trim(s)) == Trim(s)
  {
    var t := Trim(s);
    if t != [] {
      assert t[0] == TrimStart(s)[0];
    }
    TrimUnchanged(t);
  }

  /** `s.replace(pat, "").trim()`: a trimmed string no longer than `s`. */
  function CutPhrase(s: string, pat: string): (r: string)
    ensures Trim(r) == r && |r| <= |s|
  {
    TrimIdempotent(RemoveFirst(s, pat));
    Trim(RemoveFirst(s, pat))
  }

  /** Leading whitespace ends before an occurrence of a phrase that does not start with whitespace. */
  lemma OccursAfterTrimStart(s: string, w: string, i: nat)
    requires OccursAt(s, w, i) && w != [] && !IsWhitespace(w[0])
    ensures |s| - |TrimStart(s)| <= i && OccursAt(TrimStart(s), w, i - (|s| - |TrimStart(s)|))
  {
    var t := TrimStart(s);
    var d := |s| - |t|;
    assert s[i] == s[i..i + |w|][0] == w[0];
    assert t[i - d..i - d + |w|] == s[i..i + |w|];
  }

  /** Trailing whitespace starts after an occurrence of a phrase that does not end with whitespace. */
  lemma OccursAfterTrimEnd(t: string, w: string, j: nat)
    requires OccursAt(t, w, j) && w != [] && !IsWhitespace(w[|w| - 1])
    ensures OccursAt(TrimEnd(t), w, j)
  {
    var u := TrimEnd(t);
    var last := j + |w| - 1;
    assert t[last] == t[j..j + |w|][|w| - 1] == w[|w| - 1];
    assert u[j..j + |w|] == t[j..j + |w|];
  }

  /** `trim` keeps every occurrence of a phrase that neither starts nor ends with whitespace. */
  lemma ContainsAfterTrim(s: string, w: string)
    requires Contains(s, w) && w != [] && !IsWhitespace(w[0]) && !IsWhitespace(w[|w| - 1])
    ensures Contains(Trim(s), w)
  {
    var i := IndexOf(s, w).value;
    OccursAfterTrimStart(s, w, i);
    var j := i - (|s| - |TrimStart(s)|);
    OccursAfterTrimEnd(TrimStart(s), w, j);
    OccursAtContains(Trim(s), w, j);
  }

  /** ASCII `toLowerCase` of one character; other characters are kept. */
  function LowerChar(c: char): (r: char)
    ensures 'A' <= c <= 'Z' ==> r as int == c as int + 32
    ensures !('A' <= c <= 'Z') ==> r == c
  {
    if 'A' <= c <= 'Z' then (c as int + 32) as char else c
  }

  /** `toLowerCase`, restricted to ASCII letters. */
  function ToLower(s: string): (r: string)
    ensures |r| == |s|
    ensures forall i :: 0 <= i < |s| ==> r[i] == LowerChar(s[i])
  {
    seq(|s|, i requires 0 <= i < |s| => LowerChar(s[i]))
  }

  /** Lower-casing twice is lower-casing once. */
  lemma ToLowerIdempotent(s: string)
    ensures ToLower(ToLower(s)) == ToLower(s)
  {
  }

  /** Lower-casing touches no whitespace character, so a string is blank exactly when its lower-case form is. */
  lemma ToLowerKeepsBlank(s: string)
    ensures IsBlank(ToLower(s)) <==> IsBlank(s)
  {
    assert forall i :: 0 <= i < |s| ==> (IsWhitespace(ToLower(s)[i]) <==> IsWhitespace(s[i]));
  }
}
