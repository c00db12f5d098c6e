/** ECMAScript white space, as used by both `String.prototype.trim` and the
    regular-expression class `\s` (its complement is `\S`). */
module Text {

  /** `c` is white space, matched by `\s` and removed by `trim`: one of the
      ECMAScript WhiteSpace and LineTerminator code points. These are tab,
      vertical tab, form feed, line feed, carriage return, the byte-order mark,
      the line and paragraph separators, and the Unicode space separators
      (category Zs: space, no-break space, U+1680, U+2000 to U+200A, U+202F,
      U+205F, U+3000). */
  predicate IsSpace(c: char)
  {
    c == '\t' || c == '\n' || c == '\U{000B}' || c == '\U{000C}' || c == '\r' ||
    c == ' ' || c == '\U{00A0}' || c == '\U{1680}' ||
    ('\U{2000}' <= c <= '\U{200A}') ||
    c == '\U{2028}' || c == '\U{2029}' || c == '\U{202F}' || c == '\U{205F}' ||
    c == '\U{3000}' || c == '\U{FEFF}'
  }

  /** Every character of `s` is white space (true of the empty string). */
  predicate AllSpace(s: string)
  {
    forall i :: 0 <= i < |s| ==> IsSpace(s[i])
  }

  /** No character of `s` is white space: every character matches `\S`. */
  predicate NoSpace(s: string)
  {
    forall i :: 0 <= i < |s| ==> !IsSpace(s[i])
  }

  /** `s` neither starts nor ends with white space. */
  predicate Stripped(s: string)
  {
    s == [] || (!IsSpace(s[0]) && !IsSpace(s[|s| - 1]))
  }

  /** Scans forward from `k` past white space: the index of the first
      non-white-space character at or after `k`, or `|s|` if there is none. */
  function SkipForward(s: string, k: nat): (n: nat)
    requires k <= |s|
    ensures k <= n <= |s|
    ensures forall i :: k <= i < n ==> IsSpace(s[i])
    ensures n < |s| ==> !IsSpace(s[n])
    decreases |s| - k
  {
    if k < |s| && IsSpace(s[k]) then SkipForward(s, k + 1) else k
  }

  /** Scans backward from `k` past white space: the end of the last
      non-white-space character before `k`, or 0 if there is none. */
  function SkipBackward(s: string, k: nat): (n: nat)
    requires k <= |s|
    ensures n <= k
    ensures forall i :: n <= i < k ==> IsSpace(s[i])
    ensures 0 < n ==> !IsSpace(s[n - 1])
  {
    if 0 < k && IsSpace(s[k - 1]) then SkipBackward(s, k - 1) else k
  }

  /** JavaScript's `s.trim()`: `s` without its leading and trailing white space.
      The result is a slice `s[k..m]` of the input, everything cut off is white
      space, and what is left neither starts nor ends with white space. */
  function Trim(s: string): (r: string)
    ensures exists k, m :: 0 <= k <= m <= |s| && r == s[k..m] && AllSpace(s[..k]) && AllSpace(s[m..])
    ensures Stripped(r)
  {
    var k := SkipForward(s, 0);
    var m := SkipBackward(s, |s|);
    if m <= k then
      assert AllSpace(s[..k]) && AllSpace(s[k..]) by {
        forall i | 0 <= i < |s| ensures IsSpace(s[i]) {
          assert i < k || m <= i;
        }
      }
      s[k..k]
    else
      assert AllSpace(s[..k]) && AllSpace(s[m..]);
      s[k..m]
  }

  /** The trimmed string is empty exactly when the input is all white space
      (the JavaScript truthiness test `s.trim()` fails exactly for such `s`). */
  lemma TrimEmptyIff(s: string)
    ensures Trim(s) == [] <==> AllSpace(s)
  {
    var r := Trim(s);
    var k, m :| 0 <= k <= m <= |s| && r == s[k..m] && AllSpace(s[..k]) && AllSpace(s[m..]);
    if r == [] {
      forall i | 0 <= i < |s| ensures IsSpace(s[i]) {
        if i < k { assert s[i] == s[..k][i]; } else { assert s[i] == s[m..][i - m]; }
      }
    } else {
      assert s[k] == r[0];
    }
  }

  /** A string without white space is left unchanged by trimming. */
  lemma TrimNoSpace(s: string)
    requires NoSpace(s)
    ensures Trim(s) == s
  {
    assert SkipForward(s, 0) == 0 && SkipBackward(s, |s|) == |s|;
  }
}
