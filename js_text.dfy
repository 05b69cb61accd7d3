/**
 * The part of JavaScript's string library that the speech and lesson code uses:
 * `String.prototype.trim`, which removes leading and trailing white space and
 * line terminators.
 */
module JsText {

  /** ECMAScript's WhiteSpace and LineTerminator code points, the set that `trim` removes. */
  predicate IsWhiteSpace(c: char)
  {
    || c == '\t' || c == '\n' || c == '\U{B}' || c == '\U{C}' || c == '\r' || c == ' '
    || c == '\U{A0}' || c == '\U{1680}' || ('\U{2000}' <= c <= '\U{200A}')
    || c == '\U{2028}' || c == '\U{2029}' || c == '\U{202F}' || c == '\U{205F}'
    || c == '\U{3000}' || c == '\U{FEFF}'
  }

  /** A string made only of white space (the empty string included). */
  ghost predicate IsBlank(s: string)
  {
    forall i :: 0 <= i < |s| ==> IsWhiteSpace(s[i])
  }

  /** The first position at or after `i` that does not hold white space (or `|s|`). */
  function SkipSpace(s: string, i: nat): (j: nat)
    requires i <= |s|
    ensures i <= j <= |s|
    ensures forall k :: i <= k < j ==> IsWhiteSpace(s[k])
    ensures j < |s| ==> !IsWhiteSpace(s[j])
    decreases |s| - i
  {
    if i < |s| && IsWhiteSpace(s[i]) then SkipSpace(s, i + 1) else i
  }

  /** The end of `s[lo..j]` once its trailing white space is dropped. */
  function SkipSpaceBack(s: string, lo: nat, j: nat): (e: nat)
    requires lo <= j <= |s|
    ensures lo <= e <= j
    ensures forall k :: e <= k < j ==> IsWhiteSpace(s[k])
    ensures e > lo ==> !IsWhiteSpace(s[e - 1])
    decreases j
  {
    if j > lo && IsWhiteSpace(s[j - 1]) then SkipSpaceBack(s, lo, j - 1) else j
  }

  /** Where the text that `trim` keeps starts. */
  function TrimStartIndex(s: string): nat
  {
    SkipSpace(s, 0)
  }

  /** Where the text that `trim` keeps ends. */
  function TrimEndIndex(s: string): nat
  {
    SkipSpaceBack(s, TrimStartIndex(s), |s|)
  }

  /**
   * `trim`: the middle of `s` between its leading and its trailing white space.
   * It is empty exactly when `s` is blank, and otherwise starts and ends with a
   * character that is not white space.
   */
  function Trim(s: string): (r: string)
    ensures r == [] <==> IsBlank(s)
    ensures r != [] ==> !IsWhiteSpace(r[0]) && !IsWhiteSpace(r[|r| - 1])
  {
    s[TrimStartIndex(s)..TrimEndIndex(s)]
  }

  /** `trim` only cuts white space off the two ends: `s` is blank text, `Trim(s)`, blank text. */
  lemma TrimSplits(s: string)
    ensures s == s[..TrimStartIndex(s)] + Trim(s) + s[TrimEndIndex(s)..]
    ensures IsBlank(s[..TrimStartIndex(s)]) && IsBlank(s[TrimEndIndex(s)..])
  {
    var a, e := TrimStartIndex(s), TrimEndIndex(s);
    assert s == s[..a] + s[a..e] + s[e..];
  }

  /** `SkipSpace` stops exactly at the first non-white-space position. */
  lemma {:induction false} SkipSpaceAt(s: string, i: nat, j: nat)
    requires i <= j <= |s|
    requires forall k :: i <= k < j ==> IsWhiteSpace(s[k])
    requires j < |s| ==> !IsWhiteSpace(s[j])
    ensures SkipSpace(s, i) == j
    decreases j - i
  {
    if i < j {
      SkipSpaceAt(s, i + 1, j);
    }
  }

  /** `SkipSpaceBack` stops exactly after the last non-white-space position. */
  lemma {:induction false} SkipSpaceBackAt(s: string, lo: nat, e: nat, j: nat)
    requires lo <= e <= j <= |s|
    requires forall k :: e <= k < j ==> IsWhiteSpace(s[k])
    requires e > lo ==> !IsWhiteSpace(s[e - 1])
    ensures SkipSpaceBack(s, lo, j) == e
    decreases j
  {
    if e < j {
      SkipSpaceBackAt(s, lo, e, j - 1);
    }
  }

  /**
   * `trim` is characterised by its result alone: whenever `s` is some blank text,
   * then a core that neither starts nor ends with white space, then blank text,
   * trimming `s` yields exactly that core.
   */
  lemma TrimUnique(pre: string, core: string, post: string)
    requires IsBlank(pre) && IsBlank(post)
    requires core != [] ==> !IsWhiteSpace(core[0]) && !IsWhiteSpace(core[|core| - 1])
    ensures Trim(pre + core + post) == core
  {
    var s := pre + core + post;
    if core == [] {
      assert IsBlank(s) by {
        forall k | 0 <= k < |s| ensures IsWhiteSpace(s[k]) {
          if k < |pre| { assert s[k] == pre[k]; } else { assert s[k] == post[k - |pre|]; }
        }
      }
    } else {
      var a, e := |pre|, |pre| + |core|;
      assert forall k :: 0 <= k < a ==> s[k] == pre[k];
      assert forall k :: e <= k < |s| ==> s[k] == post[k - e];
      assert s[a] == core[0] && s[e - 1] == core[|core| - 1];
      SkipSpaceAt(s, 0, a);
      SkipSpaceBackAt(s, a, e, |s|);
      assert s[a..e] == core;
    }
  }

  /** Trimming twice is trimming once. */
  lemma TrimIdempotent(s: string)
    ensures Trim(Trim(s)) == Trim(s)
  {
    var r := Trim(s);
    assert r == [] + r + [];
    TrimUnique([], r, []);
  }
}
