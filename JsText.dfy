/** The part of ECMAScript string handling the relay depends on:
    `String.prototype.trim` and the "blank transcript" test built on it. */
module JsText {

  /** ECMAScript WhiteSpace and LineTerminator code points: the characters
      that `trim` removes. */
  const Whitespace: set<char> := {
    '\t', '\n', '\U{000B}', '\U{000C}', '\r', ' ', '\U{00A0}', '\U{1680}',
    '\U{2000}', '\U{2001}', '\U{2002}', '\U{2003}', '\U{2004}', '\U{2005}',
    '\U{2006}', '\U{2007}', '\U{2008}', '\U{2009}', '\U{200A}',
    '\U{2028}', '\U{2029}', '\U{202F}', '\U{205F}', '\U{3000}', '\U{FEFF}' }

  predicate IsJsWhitespace(c: char)
  {
    c in Whitespace
  }

  /** True of the empty string and of strings of whitespace only:
      exactly the strings for which `!s || s.trim().length === 0` holds. */
  predicate IsBlank(s: string)
  {
    forall i | 0 <= i < |s| :: IsJsWhitespace(s[i])
  }

  /** Drops the leading whitespace. */
  function TrimStart(s: string): string
    decreases |s|
  {
    if s != [] && IsJsWhitespace(s[0]) then TrimStart(s[1..]) else s
  }

  /** Drops the trailing whitespace. */
  function TrimEnd(s: string): string
    decreases |s|
  {
    if s != [] && IsJsWhitespace(s[|s| - 1]) then TrimEnd(s[..|s| - 1]) else s
  }

  /** `s.trim()`. */
  function Trim(s: string): string
  {
    TrimEnd(TrimStart(s))
  }

  /** TrimStart returns a suffix of `s`, drops only whitespace, and its
      result is empty or starts with a non-space. */
  lemma {:induction false} TrimStartSpec(s: string)
    ensures var r := TrimStart(s);
      && |r| <= |s| && r == s[|s| - |r|..]
      && IsBlank(s[..|s| - |r|])
      && (r != [] ==> !IsJsWhitespace(r[0]))
    decreases |s|
  {
    if s != [] && IsJsWhitespace(s[0]) {
      TrimStartSpec(s[1..]);
      var r := TrimStart(s[1..]);
      assert TrimStart(s) == r;
      assert s[1..][|s| - 1 - |r|..] == s[|s| - |r|..];
      assert s[1..][..|s| - 1 - |r|] == s[..|s| - |r|][1..];
      assert s[..|s| - |r|][..1] == [s[0]];
      BlankSplit(s[..|s| - |r|], 1);
    }
  }

  /** TrimEnd returns a prefix of `s`, drops only whitespace, and its
      result is empty or ends with a non-space. */
  lemma {:induction false} TrimEndSpec(s: string)
    ensures var r := TrimEnd(s);
      && |r| <= |s| && r == s[..|r|]
      && IsBlank(s[|r|..])
      && (r != [] ==> !IsJsWhitespace(r[|r| - 1]))
    decreases |s|
  {
    if s != [] && IsJsWhitespace(s[|s| - 1]) {
      TrimEndSpec(s[..|s| - 1]);
      var r := TrimEnd(s[..|s| - 1]);
      assert TrimEnd(s) == r;
      assert s[..|s| - 1][..|r|] == s[..|r|];
      assert s[..|s| - 1][|r|..] == s[|r|..][..|s| - 1 - |r|];
      assert s[|r|..][|s| - 1 - |r|..] == [s[|s| - 1]];
      BlankSplit(s[|r|..], |s| - 1 - |r|);
    }
  }

  /** `trim` removes exactly the whitespace at both ends: the result is the
      slice of `s` between two blank parts, it neither starts nor ends with
      whitespace, and it is empty exactly when `s` is blank. */
  lemma TrimSpec(s: string)
    ensures var r := Trim(s); var i := |s| - |TrimStart(s)|;
      && 0 <= i && i + |r| <= |s| && s[i..i + |r|] == r
      && IsBlank(s[..i]) && IsBlank(s[i + |r|..])
      && (r != [] ==> !IsJsWhitespace(r[0]) && !IsJsWhitespace(r[|r| - 1]))
      && (r == [] <==> IsBlank(s))
  {
    var front := TrimStart(s);
    TrimStartSpec(s);
    TrimEndSpec(front);
    var r := TrimEnd(front);
    var i := |s| - |front|;
    assert s[i..i + |r|] == r;
    assert s[i + |r|..] == front[|r|..];
    BlankSplit(s, i);
    BlankSplit(front, |r|);
    assert r != [] ==> s[i] == r[0];
  }

  /** A string is blank exactly when both parts of any split of it are. */
  lemma BlankSplit(s: string, k: nat)
    requires k <= |s|
    ensures IsBlank(s) <==> IsBlank(s[..k]) && IsBlank(s[k..])
  {
    if IsBlank(s[..k]) && IsBlank(s[k..]) {
      forall i | 0 <= i < |s| ensures IsJsWhitespace(s[i]) {
        if i < k { assert s[i] == s[..k][i]; } else { assert s[i] == s[k..][i - k]; }
      }
    }
  }
}
