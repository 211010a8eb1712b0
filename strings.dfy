/**
 * The two Python string operations the search workflow relies on:
 * `str.strip()` with no argument, which removes whitespace at both ends,
 * and `str.replace(old, new)` for a one-character `old`.
 */
module Strings {

  /** The code points for which Python's `str.isspace()` holds; `strip()` removes exactly these. */
  predicate IsWhitespace(c: char) {
    ('\t' <= c <= '\r') || ('\U{1c}' <= c <= ' ') || c == '\U{85}' || c == '\U{a0}'
    || c == '\U{1680}' || ('\U{2000}' <= c <= '\U{200a}') || c == '\U{2028}' || c == '\U{2029}'
    || c == '\U{202f}' || c == '\U{205f}' || c == '\U{3000}'
  }

  /** Python's truthiness test `not s.strip()`: nothing but whitespace (or nothing at all). */
  predicate AllWhitespace(s: string) {
    forall i :: 0 <= i < |s| ==> IsWhitespace(s[i])
  }

  /** `s.lstrip()`: the longest suffix of `s` that does not start with whitespace. */
  function TrimStart(s: string): (r: string)
    ensures |r| <= |s| && r == s[|s| - |r|..]
    ensures AllWhitespace(s[..|s| - |r|])
    ensures r != [] ==> !IsWhitespace(r[0])
  {
    if s != [] && IsWhitespace(s[0]) then
      var r := TrimStart(s[1..]);
      assert s[1..][..|s| - 1 - |r|] == s[1..|s| - |r|];
      r
    else
      s
  }

  /** `s.rstrip()`: the longest prefix of `s` that does not end with whitespace. */
  function TrimEnd(s: string): (r: string)
    ensures |r| <= |s| && r == s[..|r|]
    ensures AllWhitespace(s[|r|..])
    ensures r != [] ==> !IsWhitespace(r[|r| - 1])
  {
    if s != [] && IsWhitespace(s[|s| - 1]) then
      var r := TrimEnd(s[..|s| - 1]);
      assert s[..|s| - 1][|r|..] == s[|r|..|s| - 1];
      assert s[|r|..] == s[|r|..|s| - 1] + [s[|s| - 1]];
      r
    else
      s
  }

  /** `s.strip()`. */
  function Strip(s: string): (r: string)
    ensures |r| <= |s|
    ensures r != [] ==> !IsWhitespace(r[0]) && !IsWhitespace(r[|r| - 1])
  {
    TrimEnd(TrimStart(s))
  }

  /**
   * What `strip()` removes: a run of whitespace in front (`i` characters) and
   * a run of whitespace at the back; what it keeps is the slice in between.
   */
  lemma StripMiddle(s: string)
    ensures var i := |s| - |TrimStart(s)|; var r := Strip(s);
            i + |r| <= |s| && r == s[i..i + |r|] && AllWhitespace(s[..i]) && AllWhitespace(s[i + |r|..])
  {
    var t := TrimStart(s);
    var r := TrimEnd(t);
    var i := |s| - |t|;
    assert t[|r|..] == s[i + |r|..];
  }

  /** A stripped string is empty exactly when the original holds only whitespace. */
  lemma StripEmptyIff(s: string)
    ensures Strip(s) == [] <==> AllWhitespace(s)
  {
    var t := TrimStart(s);
    var k := |s| - |t|;
    LeadingWhitespace(s);
    assert t != [] ==> t[0] == s[k] && !IsWhitespace(s[k]);
    assert Strip(s) == [] ==> AllWhitespace(t[0..]);
  }

  /** Every character that `TrimStart` drops is whitespace. */
  lemma LeadingWhitespace(s: string)
    ensures forall j :: 0 <= j < |s| - |TrimStart(s)| ==> IsWhitespace(s[j])
  {
    var k := |s| - |TrimStart(s)|;
    forall j | 0 <= j < k ensures IsWhitespace(s[j]) {
      assert s[..k][j] == s[j];
    }
  }

  /** Stripping never adds or removes a character that is not whitespace. */
  lemma StripKeepsNonWhitespace(s: string, c: char)
    requires !IsWhitespace(c)
    ensures c in Strip(s) <==> c in s
  {
    var r, i := Strip(s), |s| - |TrimStart(s)|;
    assert i + |r| <= |s| && r == s[i..i + |r|] && AllWhitespace(s[..i]) && AllWhitespace(s[i + |r|..]) by {
      StripMiddle(s);
    }
    MiddleKeeps(s, i, r, c);
  }

  /** A slice between two whitespace runs holds every character of `s` that is not whitespace. */
  lemma MiddleKeeps(s: string, i: nat, r: string, c: char)
    requires i + |r| <= |s| && r == s[i..i + |r|] && AllWhitespace(s[..i]) && AllWhitespace(s[i + |r|..])
    requires !IsWhitespace(c)
    ensures c in r <==> c in s
  {
    forall k | 0 <= k < i ensures s[k] != c {
      assert s[..i][k] == s[k];
    }
    forall k | i + |r| <= k < |s| ensures s[k] != c {
      assert s[i + |r|..][k - i - |r|] == s[k];
    }
    if c in s {
      var k :| 0 <= k < |s| && s[k] == c;
      assert r[k - i] == c;
    }
    if c in r {
      var j :| 0 <= j < |r| && r[j] == c;
      assert s[i + j] == c;
    }
  }

  /** `s.replace(c, with)` for a single character `c`: every occurrence of `c` becomes `with`. */
  function ReplaceChar(s: string, c: char, with: string): (r: string)
    ensures c !in with ==> c !in r
    ensures |with| == 1 ==> |r| == |s| && forall i :: 0 <= i < |s| ==> r[i] == (if s[i] == c then with[0] else s[i])
  {
    if s == [] then []
    else (if s[0] == c then with else [s[0]]) + ReplaceChar(s[1..], c, with)
  }
}
