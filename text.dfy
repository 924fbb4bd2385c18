/** The part of JavaScript's string handling the tracker relies on: `String.prototype.trim`. */
module Text {

  /** ECMAScript WhiteSpace and LineTerminator code points, the characters `trim` removes. */
  predicate IsSpace(c: char)
  {
    || c == '\t' || c == '\n' || c == '\U{000B}' || c == '\U{000C}' || c == '\r' || c == ' '
    || c == '\U{00A0}' || c == '\U{1680}' || ('\U{2000}' <= c <= '\U{200A}')
    || c == '\U{2028}' || c == '\U{2029}' || c == '\U{202F}' || c == '\U{205F}'
    || c == '\U{3000}' || c == '\U{FEFF}'
  }

  /** A string that is empty once trimmed: `!s.trim()` holds exactly for these. */
  predicate IsBlank(s: string)
  {
    forall i :: 0 <= i < |s| ==> IsSpace(s[i])
  }

  /** `s` without its leading white space. */
  function TrimStart(s: string): (r: string)
    ensures |r| <= |s| && r == s[|s| - |r|..]
    ensures forall i :: 0 <= i < |s| - |r| ==> IsSpace(s[i])
    ensures r != [] ==> !IsSpace(r[0])
  {
    if s != [] && IsSpace(s[0]) then TrimStart(s[1..]) else s
  }

  /** `s` without its trailing white space. */
  function TrimEnd(s: string): (r: string)
    ensures |r| <= |s| && r == s[..|r|]
    ensures forall i :: |r| <= i < |s| ==> IsSpace(s[i])
    ensures r != [] ==> !IsSpace(r[|r| - 1])
  {
    if s != [] && IsSpace(s[|s| - 1]) then TrimEnd(s[..|s| - 1]) else s
  }

  /** `s.trim()`: the longest slice of `s` that neither starts nor ends with white space. */
  function Trim(s: string): (r: string)
    ensures r == [] <==> IsBlank(s)
    ensures |r| <= |s|
    ensures r != [] ==> !IsSpace(r[0]) && !IsSpace(r[|r| - 1])
  {
    TrimEnd(TrimStart(s))
  }

  /**
   * A string `t` that is `s` minus a blank prefix of length `a`, cut down to a prefix `u`
   * whose removed tail is blank, is the slice of `s` between two blank ends.
   */
  lemma BlankEnds(s: string, a: nat, t: string, u: string)
    requires a <= |s| && t == s[a..] && |u| <= |t| && u == t[..|u|]
    requires forall i :: 0 <= i < a ==> IsSpace(s[i])
    requires forall i :: |u| <= i < |t| ==> IsSpace(t[i])
    ensures exists i, j :: 0 <= i <= j <= |s| && u == s[i..j] && IsBlank(s[..i]) && IsBlank(s[j..])
  {
    var b := a + |u|;
    forall i | 0 <= i < a ensures IsSpace(s[..a][i]) {
      assert s[..a][i] == s[i];
    }
    forall i | 0 <= i < |s| - b ensures IsSpace(s[b..][i]) {
      assert s[b..][i] == t[|u| + i];
    }
    assert u == s[a..b];
  }

  /**
   * What `Trim` removes is a blank prefix and a blank suffix: the result is a slice
   * of `s` and everything outside it is white space.
   */
  lemma TrimIsSlice(s: string)
    ensures exists a, b :: 0 <= a <= b <= |s| && Trim(s) == s[a..b] && IsBlank(s[..a]) && IsBlank(s[b..])
  {
    var t := TrimStart(s);
    BlankEnds(s, |s| - |t|, t, TrimEnd(t));
  }
}
