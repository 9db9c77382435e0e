/**
 * The few JavaScript string operations the core relies on: `toLowerCase`
 * (per character), `startsWith`, `includes`, `substring(start)` and `trim`.
 */
module Text {

  /**
   * The capital letters lower-cased here, each by a fixed offset: ASCII A-Z
   * and the Latin-1 capitals U+00C0-U+00DE except the multiplication sign
   * (by 0x20), and the Cyrillic capitals U+0400-U+040F (by 0x50) and
   * U+0410-U+042F (by 0x20).
   */
  predicate IsUpper(c: char) {
    ('A' <= c <= 'Z') || ('\U{00C0}' <= c <= '\U{00DE}' && c != '\U{00D7}') || ('\U{0400}' <= c <= '\U{042F}')
  }

  /** Per-character lower-casing: each capital of `IsUpper` maps to its small letter, every other character is kept. */
  function LowerChar(c: char): (r: char)
    ensures IsUpper(c) ==> r != c && !IsUpper(r)
    ensures !IsUpper(c) ==> r == c
    ensures 'A' <= c <= 'Z' ==> 'a' <= r <= 'z'
  {
    if '\U{0400}' <= c <= '\U{040F}' then (c as int + 0x50) as char
    else if IsUpper(c) then (c as int + 0x20) as char
    else c
  }

  /** `s.toLowerCase()`, character by character. */
  function Lower(s: string): (r: string)
    ensures |r| == |s|
    ensures forall i :: 0 <= i < |s| ==> r[i] == LowerChar(s[i])
  {
    seq(|s|, i requires 0 <= i < |s| => LowerChar(s[i]))
  }

  lemma LowerIdempotent(s: string)
    ensures Lower(Lower(s)) == Lower(s)
  {
  }

  /** `s.startsWith(p)`. */
  predicate StartsWith(s: string, p: string): (r: bool)
    ensures r <==> |p| <= |s| && forall i :: 0 <= i < |p| ==> s[i] == p[i]
  {
    |p| <= |s| && s[..|p|] == p
  }

  /** `t` occurs in `s` starting at position `i`. */
  predicate OccursAt(s: string, t: string, i: nat) {
    i + |t| <= |s| && s[i..i + |t|] == t
  }

  /** `s.includes(t)`: `t` occurs in `s` at some position. */
  predicate Includes(s: string, t: string): (r: bool)
    ensures t == "" ==> r
    ensures |t| > |s| ==> !r
    ensures StartsWith(s, t) ==> r
  {
    assert t == "" || StartsWith(s, t) ==> OccursAt(s, t, 0);
    exists i: nat | i <= |s| :: OccursAt(s, t, i)
  }

  /** `s.substring(start)` for a non-negative start: the rest of the string, or "" past its end. */
  function SubstringFrom(s: string, start: nat): (r: string)
    ensures start <= |s| ==> s == s[..start] + r
    ensures start >= |s| ==> r == ""
  {
    if start <= |s| then s[start..] else ""
  }

  /** The characters that `String.prototype.trim` removes (white space and line terminators). */
  predicate IsWhitespace(c: char) {
    c == ' ' || c == '\t' || c == '\n' || c == '\r' || c == '\U{000B}' || c == '\U{000C}'
    || c == '\U{00A0}' || c == '\U{1680}' || ('\U{2000}' <= c <= '\U{200A}')
    || c == '\U{2028}' || c == '\U{2029}' || c == '\U{202F}' || c == '\U{205F}'
    || c == '\U{3000}' || c == '\U{FEFF}'
  }

  predicate IsBlank(s: string) {
    forall i :: 0 <= i < |s| ==> IsWhitespace(s[i])
  }

  /** The end of the run of white space in `s` that starts at `i`. */
  function BlankRunFrom(s: string, i: nat): (e: nat)
    requires i <= |s|
    ensures i <= e <= |s|
    ensures forall k :: i <= k < e ==> IsWhitespace(s[k])
    ensures e < |s| ==> !IsWhitespace(s[e])
    decreases |s| - i
  {
    if i == |s| || !IsWhitespace(s[i]) then i else BlankRunFrom(s, i + 1)
  }

  /** The start of the run of white space in `s` that ends at `j`, not reaching below `lo`. */
  function BlankRunBefore(s: string, lo: nat, j: nat): (b: nat)
    requires lo <= j <= |s|
    ensures lo <= b <= j
    ensures forall k :: b <= k < j ==> IsWhitespace(s[k])
    ensures b > lo ==> !IsWhitespace(s[b - 1])
    decreases j
  {
    if j == lo || !IsWhitespace(s[j - 1]) then j else BlankRunBefore(s, lo, j - 1)
  }

  /** `s.trim()`: white space removed from both ends. */
  function Trim(s: string): (r: string)
    ensures r == "" || (!IsWhitespace(r[0]) && !IsWhitespace(r[|r| - 1]))
    ensures exists i: nat :: OccursAt(s, r, i) && IsBlank(s[..i]) && IsBlank(s[i + |r|..])
  {
    var i := BlankRunFrom(s, 0);
    var e := BlankRunBefore(s, i, |s|);
    assert OccursAt(s, s[i..e], i);
    assert IsBlank(s[..i]) && IsBlank(s[e..]);
    s[i..e]
  }

  /** `s.trim() !== ""` exactly when `s` holds a character that is not white space. */
  lemma TrimEmptyIffBlank(s: string)
    ensures Trim(s) == "" <==> IsBlank(s)
  {
  }
}
