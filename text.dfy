/** String helpers with the semantics of the JavaScript built-ins the
    storefront relies on: `startsWith`, `trim` and `split(sep)[0]`. */
module Text {

  /** `s.startsWith(prefix)`. */
  predicate StartsWith(s: string, prefix: string)
  {
    |prefix| <= |s| && s[..|prefix|] == prefix
  }

  /** The code points `String.prototype.trim` removes: ECMAScript WhiteSpace
      (tab, vertical tab, form feed, space, no-break space, zero-width no-break
      space and the Unicode space separators) and LineTerminator. */
  predicate IsWhitespace(c: char)
  {
    c == '\t' || c == '\U{B}' || c == '\U{C}' || c == ' ' || c == '\U{A0}' || c == '\U{FEFF}'
    || c == '\U{1680}' || ('\U{2000}' <= c <= '\U{200A}') || c == '\U{202F}' || c == '\U{205F}'
    || c == '\U{3000}' || c == '\n' || c == '\r' || c == '\U{2028}' || c == '\U{2029}'
  }

  predicate Blank(s: string)
  {
    forall i :: 0 <= i < |s| ==> IsWhitespace(s[i])
  }

  /** `s.trimStart()`: the longest suffix of `s` that does not start with whitespace. */
  function TrimStart(s: string): (r: string)
    ensures |r| <= |s| && r == s[|s| - |r|..]
    ensures Blank(s[..|s| - |r|])
    ensures r != [] ==> !IsWhitespace(r[0])
  {
    if s == [] then []
    else if IsWhitespace(s[0]) then
      var r := TrimStart(s[1..]);
      BlankFront(s, r);
      r
    else s
  }

  /** One more whitespace character in front extends the blank part that `trimStart` drops. */
  lemma BlankFront(s: string, r: string)
    requires |s| >= 1 && IsWhitespace(s[0])
    requires |r| <= |s| - 1 && r == s[1..][|s| - 1 - |r|..] && Blank(s[1..][..|s| - 1 - |r|])
    ensures r == s[|s| - |r|..] && Blank(s[..|s| - |r|])
  {
    var n := |s| - |r|;
    assert s[1..][..n - 1] == s[1..n];
    assert s[1..][n - 1..] == s[n..];
    forall i | 0 <= i < n ensures IsWhitespace(s[..n][i]) {
      if i > 0 {
        assert s[..n][i] == s[1..n][i - 1];
      }
    }
  }

  /** `s.trimEnd()`: the longest prefix of `s` that does not end with whitespace. */
  function TrimEnd(s: string): (r: string)
    ensures |r| <= |s| && r == s[..|r|]
    ensures Blank(s[|r|..])
    ensures r != [] ==> !IsWhitespace(r[|r| - 1])
  {
    if s == [] then []
    else if IsWhitespace(s[|s| - 1]) then
      var r := TrimEnd(s[..|s| - 1]);
      assert s[..|s| - 1][|r|..] + [s[|s| - 1]] == s[|r|..];
      r
    else s
  }

  /** `s.trim()`: the infix of `s` left after dropping whitespace at both
      ends; it is empty exactly when `s` consists of whitespace only. */
  function Trim(s: string): (r: string)
    ensures |r| <= |s|
    ensures r != [] ==> !IsWhitespace(r[0]) && !IsWhitespace(r[|r| - 1])
    ensures r == [] <==> Blank(s)
    ensures exists a :: TrimmedAt(s, r, a)
  {
    var t := TrimStart(s);
    TrimmedInfix(s, |s| - |t|, TrimEnd(t));
    TrimEnd(t)
  }

  /** `r` is the infix of `s` from `a` and only whitespace lies before and after it. */
  predicate TrimmedAt(s: string, r: string, a: int)
  {
    0 <= a <= |s| - |r| && r == s[a..a + |r|] && Blank(s[..a]) && Blank(s[a + |r|..])
  }

  /** Trimming `a` characters of whitespace at the front and then a suffix of
      whitespace leaves the infix from `a`; it is empty only when all of `s`
      is whitespace. */
  lemma TrimmedInfix(s: string, a: int, r: string)
    requires 0 <= a <= |s| && Blank(s[..a]) && (a < |s| ==> !IsWhitespace(s[a]))
    requires |r| <= |s| - a && r == s[a..][..|r|] && Blank(s[a..][|r|..])
    ensures TrimmedAt(s, r, a)
    ensures r == [] <==> Blank(s)
  {
    assert s[a..][..|r|] == s[a..a + |r|];
    assert s[a..][|r|..] == s[a + |r|..];
    if a < |s| {
      assert s[a..][0] == s[a];
    }
    if r != [] {
      assert r[0] == s[a];
    } else {
      assert a == |s| && s[..a] == s;
    }
  }

  /** `s.split(sep)[0]`: everything before the first `sep`, or all of `s`. */
  function BeforeFirst(s: string, sep: char): (r: string)
    ensures |r| <= |s| && r == s[..|r|]
    ensures forall i :: 0 <= i < |r| ==> r[i] != sep
    ensures |r| < |s| ==> s[|r|] == sep
  {
    if s == [] then []
    else if s[0] == sep then []
    else [s[0]] + BeforeFirst(s[1..], sep)
  }
}
