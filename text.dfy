/**
 * Whitespace trimming as JavaScript's `String.prototype.trim` does it:
 * remove every leading and every trailing character that ECMAScript
 * counts as WhiteSpace or LineTerminator.
 *
 * The stripping functions take the set of characters to strip as a
 * parameter, so that their properties are proved once for any set;
 * `Trim` fixes it to ECMAScript's whitespace.
 */
module Text {

  /** ECMAScript WhiteSpace (TAB, VT, FF, SP, NBSP, ZWNBSP and the rest of the Zs category)
      and LineTerminator (LF, CR, LS, PS). */
  const Spaces: set<char> := {
    '\t', '\U{000B}', '\U{000C}', ' ', '\U{00A0}', '\U{FEFF}', '\U{1680}',
    '\U{2000}', '\U{2001}', '\U{2002}', '\U{2003}', '\U{2004}', '\U{2005}',
    '\U{2006}', '\U{2007}', '\U{2008}', '\U{2009}', '\U{200A}',
    '\U{202F}', '\U{205F}', '\U{3000}',
    '\n', '\r', '\U{2028}', '\U{2029}'
  }

  /** Every character of `s` is in `ws`. */
  predicate AllIn(s: string, ws: set<char>) {
    forall k :: 0 <= k < |s| ==> s[k] in ws
  }

  /** Drops characters of `ws` from the front while there are any. */
  function StripStart(s: string, ws: set<char>): (r: string)
    ensures |r| <= |s|
  {
    if s != [] && s[0] in ws then StripStart(s[1..], ws) else s
  }

  /** Drops characters of `ws` from the back while there are any. */
  function StripEnd(s: string, ws: set<char>): (r: string)
    ensures |r| <= |s|
  {
    if s != [] && s[|s| - 1] in ws then StripEnd(s[..|s| - 1], ws) else s
  }

  function Strip(s: string, ws: set<char>): (r: string)
    ensures |r| <= |s|
  {
    StripEnd(StripStart(s, ws), ws)
  }

  /** `s.trim()`: no longer than `s`, and neither starting nor ending with whitespace
      (`TrimIsMiddle` says which piece of `s` it is). */
  function Trim(s: string): (r: string)
    ensures |r| <= |s|
    ensures r != [] ==> r[0] !in Spaces && r[|r| - 1] !in Spaces
  {
    StripIsMiddle(s, Spaces);
    Strip(s, Spaces)
  }

  /** `!s.trim()`: the string is empty once trimmed, that is, it is all whitespace. */
  predicate IsBlank(s: string): (b: bool)
    ensures b <==> AllIn(s, Spaces)
  {
    StripEmptyIff(s, Spaces);
    Trim(s) == []
  }

  /** Stripping the front removes exactly the longest prefix drawn from `ws`. */
  lemma {:induction false} StripStartCuts(s: string, ws: set<char>)
    ensures var r := StripStart(s, ws);
      r == s[|s| - |r|..]
      && (forall k :: 0 <= k < |s| - |r| ==> s[k] in ws)
      && (r != [] ==> r[0] !in ws)
    decreases |s|
  {
    if s != [] && s[0] in ws {
      var t := s[1..];
      StripStartCuts(t, ws);
      var r := StripStart(t, ws);
      forall k | 1 <= k < |s| - |r| ensures s[k] in ws {
        assert s[k] == t[k - 1];
      }
    }
  }

  /** Stripping the back removes exactly the longest suffix drawn from `ws`. */
  lemma {:induction false} StripEndCuts(s: string, ws: set<char>)
    ensures var r := StripEnd(s, ws);
      r == s[..|r|]
      && (forall k :: |r| <= k < |s| ==> s[k] in ws)
      && (r != [] ==> r[|r| - 1] !in ws)
    decreases |s|
  {
    if s != [] && s[|s| - 1] in ws {
      var t := s[..|s| - 1];
      StripEndCuts(t, ws);
      var r := StripEnd(t, ws);
      assert r == s[..|r|];
      forall k | |r| <= k < |s| - 1 ensures s[k] in ws {
        assert s[k] == t[k];
      }
    }
  }

  /** Stripping leaves the piece of `s` between a head and a tail drawn from `ws`,
      and that piece neither starts nor ends with a character of `ws`. */
  lemma StripIsMiddle(s: string, ws: set<char>)
    ensures var r, i := Strip(s, ws), |s| - |StripStart(s, ws)|;
      i + |r| <= |s| && r == s[i..i + |r|]
      && (forall k :: 0 <= k < i ==> s[k] in ws)
      && (forall k :: i + |r| <= k < |s| ==> s[k] in ws)
      && (r != [] ==> r[0] !in ws && r[|r| - 1] !in ws)
  {
    var a := StripStart(s, ws);
    var r := StripEnd(a, ws);
    var i := |s| - |a|;
    StripStartCuts(s, ws);
    StripEndCuts(a, ws);
    assert r != [] ==> r[0] == a[0];
    forall k | i + |r| <= k < |s| ensures s[k] in ws {
      assert s[k] == a[k - i];
    }
  }

  /** `s.trim()` is the piece of `s` between an all-whitespace head and an
      all-whitespace tail, and that piece neither starts nor ends with whitespace. */
  lemma TrimIsMiddle(s: string)
    ensures var r, i := Trim(s), |s| - |StripStart(s, Spaces)|;
      i + |r| <= |s| && r == s[i..i + |r|]
      && AllIn(s[..i], Spaces) && AllIn(s[i + |r|..], Spaces)
      && (r != [] ==> r[0] !in Spaces && r[|r| - 1] !in Spaces)
  {
    StripIsMiddle(s, Spaces);
  }

  /** A string strips to nothing exactly when all its characters are in `ws`. */
  lemma StripEmptyIff(s: string, ws: set<char>)
    ensures Strip(s, ws) == [] <==> AllIn(s, ws)
  {
    StripIsMiddle(s, ws);
    var r, i := Strip(s, ws), |s| - |StripStart(s, ws)|;
    if r != [] {
      assert r[0] == s[i];
    }
  }
}
