/** The two string facilities the core relies on: `String.prototype.trim`
    (used to decide whether the active input is empty) and substring
    containment (used to state what a prompt contains). Strings are
    sequences of Unicode scalar values. */
module JsText {

  /** The characters `trim` removes: the ECMAScript WhiteSpace set (tab,
      vertical tab, form feed, space, no-break space, the byte-order mark and
      every other space separator) and the LineTerminator set (line feed,
      carriage return, line and paragraph separators). */
  predicate IsJsWhitespace(c: char) {
    || c == '\t' || c == '\n' || c == '\U{000B}' || c == '\U{000C}' || c == '\r'
    || c == ' ' || c == '\U{00A0}' || c == '\U{1680}'
    || ('\U{2000}' <= c <= '\U{200A}')
    || c == '\U{2028}' || c == '\U{2029}' || c == '\U{202F}' || c == '\U{205F}'
    || c == '\U{3000}' || c == '\U{FEFF}'
  }

  /** Every character of `s` is whitespace (vacuously so for ""). */
  predicate IsBlank(s: string) {
    forall i :: 0 <= i < |s| ==> IsJsWhitespace(s[i])
  }

  /** The end of the whitespace run that starts at index `i` of `s`. */
  function BlankRunEnd(s: string, i: nat): (n: nat)
    requires i <= |s|
    ensures i <= n <= |s|
    ensures forall k :: i <= k < n ==> IsJsWhitespace(s[k])
    ensures n == |s| || !IsJsWhitespace(s[n])
    decreases |s| - i
  {
    if i < |s| && IsJsWhitespace(s[i]) then BlankRunEnd(s, i + 1) else i
  }

  /** The start of the whitespace run that ends just before index `j` of
      `s`, going no lower than `lo`. */
  function BlankRunStart(s: string, lo: nat, j: nat): (n: nat)
    requires lo <= j <= |s|
    ensures lo <= n <= j
    ensures forall k :: n <= k < j ==> IsJsWhitespace(s[k])
    ensures n == lo || !IsJsWhitespace(s[n - 1])
    decreases j - lo
  {
    if lo < j && IsJsWhitespace(s[j - 1]) then BlankRunStart(s, lo, j - 1) else j
  }

  /** The runs before `i` and from `j` on are blank as slices. */
  lemma BlankSlices(s: string, i: nat, j: nat)
    requires i <= j <= |s|
    requires forall k :: 0 <= k < i ==> IsJsWhitespace(s[k])
    requires forall k :: j <= k < |s| ==> IsJsWhitespace(s[k])
    ensures IsBlank(s[..i]) && IsBlank(s[j..])
  {
    assert forall k :: 0 <= k < |s[j..]| ==> s[j..][k] == s[j + k];
  }

  /** `s.trim()`: the part of `s` between a maximal whitespace prefix and a
      maximal whitespace suffix. */
  function Trim(s: string): (r: string)
    ensures exists i, j :: 0 <= i <= j <= |s| && r == s[i..j] && IsBlank(s[..i]) && IsBlank(s[j..])
    ensures r == [] || (!IsJsWhitespace(r[0]) && !IsJsWhitespace(r[|r| - 1]))
  {
    var i := BlankRunEnd(s, 0);
    var j := BlankRunStart(s, i, |s|);
    BlankSlices(s, i, j);
    assert s[i..j] == [] || (s[i..j][0] == s[i] && s[i..j][j - i - 1] == s[j - 1]);
    s[i..j]
  }

  /** `!s.trim()` holds (the trimmed string is the falsy "") exactly when
      `s` consists of whitespace only. */
  lemma TrimEmptyIffBlank(s: string)
    ensures Trim(s) == [] <==> IsBlank(s)
  {
    var i, j :| 0 <= i <= j <= |s| && Trim(s) == s[i..j] && IsBlank(s[..i]) && IsBlank(s[j..]);
    if Trim(s) == [] {
      forall k | 0 <= k < |s|
        ensures IsJsWhitespace(s[k])
      {
        if k < i {
          assert s[k] == s[..i][k];
        } else {
          assert s[k] == s[j..][k - j];
        }
      }
    } else {
      assert Trim(s)[0] == s[i];
    }
  }

  /** `t` occurs in `s` as a contiguous run of characters. */
  predicate IsInfix(t: string, s: string) {
    exists i :: 0 <= i <= |s| && t <= s[i..]
  }

  /** A string occurs inside any string built around it. */
  lemma InfixOfConcat(a: string, t: string, b: string)
    ensures IsInfix(t, a + t + b)
  {
    var s := a + t + b;
    assert s[|a|..] == t + b;
  }

  /** Text appended after a string keeps what occurs in it. */
  lemma InfixAppend(t: string, s: string, b: string)
    requires IsInfix(t, s)
    ensures IsInfix(t, s + b)
  {
    var i :| 0 <= i <= |s| && t <= s[i..];
    assert (s + b)[i..] == s[i..] + b;
  }

  /** What occurs in an infix occurs in the whole. */
  lemma InfixTransitive(t: string, u: string, s: string)
    requires IsInfix(t, u) && IsInfix(u, s)
    ensures IsInfix(t, s)
  {
    var i :| 0 <= i <= |u| && t <= u[i..];
    var j :| 0 <= j <= |s| && u <= s[j..];
    assert t == u[i..i + |t|];
    assert u == s[j..j + |u|];
    assert t == s[j + i..j + i + |t|];
    assert s[j + i..][..|t|] == t;
  }
}
