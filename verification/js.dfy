/**
 This module models the few JavaScript built-ins the application logic leans
 on: optional values read out of props and JSON bodies, the truthiness of
 strings, `String.prototype.trim` and `String.prototype.includes`.
 */
module Js {

  datatype Option<+T> = None | Some(value: T)

  /** The outcome of a step that either yields a value or stops with an error. */
  datatype Result<+T, +E> = Success(value: T) | Failure(error: E)

  /** A field read out of a parsed JSON body, a props object or an options
      object: absent (`undefined`), explicitly `null`, or present. JavaScript
      destructuring defaults replace only `undefined`, never `null`. */
  datatype Field<+T> = Undefined | Null | Present(value: T)

  /** A string-valued field is truthy exactly when it is present and non-empty. */
  predicate Truthy(f: Field<string>) {
    f.Present? && f.value != ""
  }

  /** The WhiteSpace and LineTerminator code points of ECMAScript (ECMA-262),
      which is the set `String.prototype.trim` removes: tab, line feed,
      vertical tab, form feed, carriage return, space, no-break space, the
      byte order mark, the line and paragraph separators and every other
      code point of Unicode category Zs. */
  const WhiteSpaceChars: set<char> := {
      '\t', '\n', '\U{000B}', '\U{000C}', '\r', ' ', '\U{00A0}', '\U{1680}',
      '\U{2000}', '\U{2001}', '\U{2002}', '\U{2003}', '\U{2004}', '\U{2005}', '\U{2006}', '\U{2007}',
      '\U{2008}', '\U{2009}', '\U{200A}', '\U{2028}', '\U{2029}', '\U{202F}', '\U{205F}', '\U{3000}',
      '\U{FEFF}'
    }

  predicate IsWhiteSpace(c: char) {
    c in WhiteSpaceChars
  }

  predicate AllWhiteSpace(s: string) {
    forall i :: 0 <= i < |s| ==> IsWhiteSpace(s[i])
  }

  /** The first position at or after `i` that does not hold white space. */
  function SkipLeading(s: string, i: nat): (lo: nat)
    requires i <= |s|
    ensures i <= lo <= |s|
    ensures forall k :: i <= k < lo ==> IsWhiteSpace(s[k])
    ensures lo == |s| || !IsWhiteSpace(s[lo])
    decreases |s| - i
  {
    if i == |s| || !IsWhiteSpace(s[i]) then i else SkipLeading(s, i + 1)
  }

  /** The end of `s[lo..hi]` once its trailing white space is cut off. */
  function SkipTrailing(s: string, lo: nat, hi: nat): (end: nat)
    requires lo <= hi <= |s|
    ensures lo <= end <= hi
    ensures forall k :: end <= k < hi ==> IsWhiteSpace(s[k])
    ensures end == lo || !IsWhiteSpace(s[end - 1])
    decreases hi - lo
  {
    if hi == lo || !IsWhiteSpace(s[hi - 1]) then hi else SkipTrailing(s, lo, hi - 1)
  }

  /** `r` sits in `s` at position `lo` with only white space around it. */
  predicate InfixBetweenWhiteSpace(s: string, r: string, lo: int) {
    && 0 <= lo <= |s| - |r|
    && r == s[lo..lo + |r|]
    && (forall k :: 0 <= k < lo ==> IsWhiteSpace(s[k]))
    && (forall k :: lo + |r| <= k < |s| ==> IsWhiteSpace(s[k]))
  }

  /** `String.prototype.trim`: what is left of `s` once white space is cut
      off both ends, an infix of `s` that neither starts nor ends with white
      space, and empty exactly when `s` is all white space. */
  function Trim(s: string): (r: string)
    ensures |r| <= |s|
    ensures r == "" || (!IsWhiteSpace(r[0]) && !IsWhiteSpace(r[|r| - 1]))
    ensures exists lo :: InfixBetweenWhiteSpace(s, r, lo)
    ensures r == "" <==> AllWhiteSpace(s)
  {
    var lo := SkipLeading(s, 0);
    var hi := SkipTrailing(s, lo, |s|);
    assert s[lo..hi] == "" ==> lo == hi;
    assert InfixBetweenWhiteSpace(s, s[lo..hi], lo);
    s[lo..hi]
  }

  /** Trimming is idempotent. */
  lemma TrimIdempotent(s: string)
    ensures Trim(Trim(s)) == Trim(s)
  {
  }

  /** `sub` occurs in `s` starting at position `i`. */
  predicate OccursAt(s: string, sub: string, i: int) {
    0 <= i && i + |sub| <= |s| && s[i..i + |sub|] == sub
  }

  /** `String.prototype.includes`: true exactly when `sub` occurs somewhere in
      `s`; the empty string occurs everywhere. */
  function Includes(s: string, sub: string): (b: bool)
    ensures b <==> exists i :: OccursAt(s, sub, i)
    decreases |s|
  {
    if |sub| > |s| then
      assert forall i :: !OccursAt(s, sub, i);
      false
    else if s[..|sub|] == sub then
      assert OccursAt(s, sub, 0);
      true
    else
      var b := Includes(s[1..], sub);
      if b then
        var i :| OccursAt(s[1..], sub, i);
        assert s[i + 1..i + 1 + |sub|] == s[1..][i..i + |sub|];
        assert OccursAt(s, sub, i + 1);
        b
      else
        assert !OccursAt(s, sub, 0) by { assert s[..|sub|] == s[0..0 + |sub|]; }
        forall i | 0 < i && OccursAt(s, sub, i) ensures OccursAt(s[1..], sub, i - 1) {
          assert s[1..][i - 1..i - 1 + |sub|] == s[i..i + |sub|];
        }
        b
  }
}
