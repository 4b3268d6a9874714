/** Python's `str.strip`. `StripChars(s, cs)` is `s.strip(chars)` for a string
    `chars` holding exactly the characters of `cs`; `Strip(s)` is `s.strip()`
    with no argument, which strips the characters of `Whitespace`. The lemmas
    are stated for any character set, so the whitespace table is never unfolded
    in them. */
module PyStr {

  /** The characters for which Python's `str.isspace()` holds: TAB, LF, VT, FF,
      CR, the separators FS, GS, RS and US, SPACE, NEXT LINE, NO-BREAK SPACE,
      OGHAM SPACE MARK, EN QUAD through HAIR SPACE, LINE SEPARATOR, PARAGRAPH
      SEPARATOR, NARROW NO-BREAK SPACE, MEDIUM MATHEMATICAL SPACE and
      IDEOGRAPHIC SPACE. */
  const Whitespace: set<char> := {
    '\t', '\n', '\U{000B}', '\U{000C}', '\r',
    '\U{001C}', '\U{001D}', '\U{001E}', '\U{001F}', ' ',
    '\U{0085}', '\U{00A0}', '\U{1680}',
    '\U{2000}', '\U{2001}', '\U{2002}', '\U{2003}', '\U{2004}', '\U{2005}',
    '\U{2006}', '\U{2007}', '\U{2008}', '\U{2009}', '\U{200A}',
    '\U{2028}', '\U{2029}', '\U{202F}', '\U{205F}', '\U{3000}'
  }

  /** Every character of `s` is in `cs`. */
  predicate AllIn(s: string, cs: set<char>) {
    forall i :: 0 <= i < |s| ==> s[i] in cs
  }

  /** No character of `cs` at either end of `s`. */
  predicate Unpadded(s: string, cs: set<char>) {
    s == [] || (s[0] !in cs && s[|s| - 1] !in cs)
  }

  /** `s.lstrip(chars)`: the suffix of `s` left after dropping its leading characters from `cs`. */
  function StripLeading(s: string, cs: set<char>): (r: string)
    ensures |r| <= |s| && r == s[|s| - |r|..]
    ensures AllIn(s[..|s| - |r|], cs)
    ensures r == [] || r[0] !in cs
  {
    if s != [] && s[0] in cs then
      var r := StripLeading(s[1..], cs);
      assert s[..|s| - |r|] == [s[0]] + s[1..][..|s| - 1 - |r|];
      AllInConcat([s[0]], s[1..][..|s| - 1 - |r|], cs);
      r
    else s
  }

  /** `s.rstrip(chars)`: the prefix of `s` left after dropping its trailing characters from `cs`. */
  function StripTrailing(s: string, cs: set<char>): (r: string)
    ensures |r| <= |s| && r == s[..|r|]
    ensures AllIn(s[|r|..], cs)
    ensures r == [] || r[|r| - 1] !in cs
  {
    if s != [] && s[|s| - 1] in cs then
      var r := StripTrailing(s[..|s| - 1], cs);
      assert s[|r|..] == s[..|s| - 1][|r|..] + [s[|s| - 1]];
      AllInConcat(s[..|s| - 1][|r|..], [s[|s| - 1]], cs);
      r
    else s
  }

  /** `s.strip(chars)`: no character of `cs` at either end of the result, and the
      result is empty exactly when every character of `s` is in `cs`.
      StripSplits and StripPadded below show that it is `s` with its padding cut off. */
  function StripChars(s: string, cs: set<char>): (r: string)
    ensures r == [] <==> AllIn(s, cs)
    ensures Unpadded(r, cs)
  {
    var t := StripLeading(s, cs);
    var r := StripTrailing(t, cs);
    StrippedEnds(s, t, r, cs);
    r
  }

  /** The two facts `StripChars` promises, from what the two one-sided strips
      promise about `t`, the suffix left by the first, and `r`, the prefix left by the second. */
  lemma StrippedEnds(s: string, t: string, r: string, cs: set<char>)
    requires |t| <= |s| && t == s[|s| - |t|..] && AllIn(s[..|s| - |t|], cs) && (t == [] || t[0] !in cs)
    requires |r| <= |t| && r == t[..|r|] && AllIn(t[|r|..], cs) && (r == [] || r[|r| - 1] !in cs)
    ensures r == [] <==> AllIn(s, cs)
    ensures Unpadded(r, cs)
  {
    var pre := s[..|s| - |t|];
    assert s == pre + t;
    if r == [] {
      assert t[|r|..] == t;
      AllInConcat(pre, t, cs);
    } else {
      assert r[0] == t[0];
      assert s[|s| - |t|] == t[0];
    }
  }

  /** `s.strip()`. */
  function Strip(s: string): (r: string)
    ensures r == [] <==> AllIn(s, Whitespace)
    ensures Unpadded(r, Whitespace)
  {
    StripChars(s, Whitespace)
  }

  /** Whatever `s` is, it is padding from `cs`, then `StripChars(s, cs)`, then padding from `cs`. */
  lemma StripSplits(s: string, cs: set<char>) returns (pre: string, post: string)
    ensures s == pre + StripChars(s, cs) + post
    ensures AllIn(pre, cs) && AllIn(post, cs)
  {
    var t := StripLeading(s, cs);
    var r := StripTrailing(t, cs);
    pre, post := s[..|s| - |t|], t[|r|..];
    assert StripChars(s, cs) == r;
    Split(s, t, r);
  }

  /** A suffix `t` of `s` and a prefix `r` of `t` cut `s` into three pieces. */
  lemma Split(s: string, t: string, r: string)
    requires |t| <= |s| && t == s[|s| - |t|..] && |r| <= |t| && r == t[..|r|]
    ensures s == s[..|s| - |t|] + r + t[|r|..]
  {
    Reassemble(s, |s| - |t|, |s| - |t| + |r|);
  }

  /** Stripping padding from `cs` gives back what was padded, provided that has no
      character of `cs` at its ends: with StripSplits this fixes `StripChars(s, cs)`. */
  lemma StripPadded(pre: string, t: string, post: string, cs: set<char>)
    requires AllIn(pre, cs) && AllIn(post, cs) && Unpadded(t, cs)
    ensures StripChars(pre + t + post, cs) == t
  {
    if t == [] {
      AllInConcat(pre, post, cs);
      assert pre + t + post == pre + post;
    } else {
      assert pre + t + post == pre + (t + post);
      LeadingPadded(pre, t + post, cs);
      TrailingPadded(t, post, cs);
    }
  }

  /** A string with no character of `cs` at either end is its own stripped form. */
  lemma StripUnpadded(s: string, cs: set<char>)
    requires Unpadded(s, cs)
    ensures StripChars(s, cs) == s
  {
    assert StripLeading(s, cs) == s;
    assert StripTrailing(s, cs) == s;
  }

  /** Stripping twice is stripping once. */
  lemma StripIdempotent(s: string, cs: set<char>)
    ensures StripChars(StripChars(s, cs), cs) == StripChars(s, cs)
  {
    StripUnpadded(StripChars(s, cs), cs);
  }

  lemma {:induction false} LeadingPadded(pre: string, u: string, cs: set<char>)
    requires AllIn(pre, cs)
    requires u == [] || u[0] !in cs
    ensures StripLeading(pre + u, cs) == u
  {
    if pre != [] {
      assert (pre + u)[0] == pre[0];
      assert (pre + u)[1..] == pre[1..] + u;
      LeadingPadded(pre[1..], u, cs);
    }
  }

  lemma {:induction false} TrailingPadded(u: string, post: string, cs: set<char>)
    requires AllIn(post, cs)
    requires u == [] || u[|u| - 1] !in cs
    ensures StripTrailing(u + post, cs) == u
  {
    if post != [] {
      var n := |u + post|;
      assert (u + post)[n - 1] == post[|post| - 1];
      assert (u + post)[..n - 1] == u + post[..|post| - 1];
      TrailingPadded(u, post[..|post| - 1], cs);
    } else {
      assert u + post == u;
    }
  }

  lemma Reassemble(s: string, i: nat, j: nat)
    requires i <= j <= |s|
    ensures s == s[..i] + s[i..][..j - i] + s[i..][j - i..]
  {
  }

  lemma AllInConcat(a: string, b: string, cs: set<char>)
    ensures AllIn(a + b, cs) <==> AllIn(a, cs) && AllIn(b, cs)
  {
    if AllIn(a + b, cs) {
      forall i | 0 <= i < |a| ensures a[i] in cs {
        assert a[i] == (a + b)[i];
      }
      forall i | 0 <= i < |b| ensures b[i] in cs {
        assert b[i] == (a + b)[|a| + i];
      }
    }
  }
}
