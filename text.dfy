/**
 * The .NET string helpers the quote endpoint and client rely on:
 * `char.IsWhiteSpace`, `string.IsNullOrEmpty`, `string.IsNullOrWhiteSpace`,
 * `string.Trim` and `string.ToUpperInvariant`.
 */
module Text {
  import opened Wrappers

  /**
   * `char.IsWhiteSpace`: the Unicode space, line and paragraph separators
   * (categories Zs, Zl, Zp) together with U+0009..U+000D and U+0085.
   */
  predicate IsWhiteSpace(c: char) {
    var n := c as int;
    (0x09 <= n <= 0x0D) || n == 0x20 || n == 0x85 || n == 0xA0 || n == 0x1680
    || (0x2000 <= n <= 0x200A) || n == 0x2028 || n == 0x2029 || n == 0x202F
    || n == 0x205F || n == 0x3000
  }

  /** Space, tab, line feed and carriage return are white space; ASCII letters and digits are not. */
  lemma WhiteSpaceSamples(c: char)
    ensures c == ' ' || c == '\t' || c == '\n' || c == '\r' ==> IsWhiteSpace(c)
    ensures ('0' <= c <= '9') || ('A' <= c <= 'Z') || ('a' <= c <= 'z') ==> !IsWhiteSpace(c)
  {
  }

  predicate AllWhiteSpace(s: string) {
    forall i :: 0 <= i < |s| ==> IsWhiteSpace(s[i])
  }

  /** Neither end of `s` is white space (vacuously true of ""). */
  predicate IsTrimmed(s: string) {
    s == [] || (!IsWhiteSpace(s[0]) && !IsWhiteSpace(s[|s| - 1]))
  }

  /** `string.IsNullOrEmpty`: null or of length 0; such a string is also null or white space. */
  predicate IsNullOrEmpty(s: Option<string>)
    ensures IsNullOrEmpty(s) <==> s.None? || |s.value| == 0
    ensures IsNullOrEmpty(s) ==> IsNullOrWhiteSpace(s)
  {
    s.None? || s.value == ""
  }

  /** `string.IsNullOrWhiteSpace`: null, or nothing left once trimmed. */
  predicate IsNullOrWhiteSpace(s: Option<string>)
    ensures IsNullOrWhiteSpace(s) <==> s.None? || Trim(s.value) == ""
  {
    s.None? || (TrimEmptyIffWhiteSpace(s.value); AllWhiteSpace(s.value))
  }

  /** Drops the leading white space: what is left is a suffix of `s` that does not start with white space. */
  function TrimStart(s: string): (r: string)
    ensures |r| <= |s| && r == s[|s| - |r|..]
    ensures AllWhiteSpace(s[..|s| - |r|])
    ensures r == [] || !IsWhiteSpace(r[0])
  {
    if s != [] && IsWhiteSpace(s[0]) then
      var r := TrimStart(s[1..]);
      assert s[..|s| - |r|] == [s[0]] + s[1..][..|s| - 1 - |r|];
      r
    else s
  }

  /** Drops the trailing white space: what is left is a prefix of `s` that does not end with white space. */
  function TrimEnd(s: string): (r: string)
    ensures |r| <= |s| && r == s[..|r|]
    ensures AllWhiteSpace(s[|r|..])
    ensures r == [] || !IsWhiteSpace(r[|r| - 1])
  {
    if s != [] && IsWhiteSpace(s[|s| - 1]) then
      var r := TrimEnd(s[..|s| - 1]);
      assert s[|r|..] == s[..|s| - 1][|r|..] + [s[|s| - 1]];
      r
    else s
  }

  /** `string.Trim()`: white space removed from both ends. */
  function Trim(s: string): (r: string)
    ensures IsTrimmed(r)
    ensures |r| <= |s|
  {
    TrimEnd(TrimStart(s))
  }

  lemma {:induction false} TrimStartSkips(ws: string, t: string)
    requires AllWhiteSpace(ws)
    requires t == [] || !IsWhiteSpace(t[0])
    ensures TrimStart(ws + t) == t
  {
    if ws != [] {
      assert (ws + t)[1..] == ws[1..] + t;
      TrimStartSkips(ws[1..], t);
    } else {
      assert ws + t == t;
    }
  }

  lemma {:induction false} TrimEndSkips(t: string, ws: string)
    requires AllWhiteSpace(ws)
    requires t == [] || !IsWhiteSpace(t[|t| - 1])
    ensures TrimEnd(t + ws) == t
  {
    if ws != [] {
      assert (t + ws)[..|t + ws| - 1] == t + ws[..|ws| - 1];
      TrimEndSkips(t, ws[..|ws| - 1]);
    } else {
      assert t + ws == t;
    }
  }

  /**
   * Reference definition of Trim: whenever `s` is white space, then `r`,
   * then white space, and `r` has no white space at either end, Trim(s) is `r`.
   */
  lemma TrimCharacterized(s: string, lead: string, r: string, trail: string)
    requires s == lead + r + trail
    requires AllWhiteSpace(lead) && AllWhiteSpace(trail) && IsTrimmed(r)
    ensures Trim(s) == r
  {
    if r == [] {
      assert s == (lead + trail) + [];
      assert AllWhiteSpace(lead + trail);
      TrimStartSkips(lead + trail, []);
    } else {
      assert s == lead + (r + trail);
      TrimStartSkips(lead, r + trail);
      TrimEndSkips(r, trail);
    }
  }

  /** Trim splits its input into leading white space, the result and trailing white space. */
  lemma TrimSplits(s: string) returns (lead: string, trail: string)
    ensures s == lead + Trim(s) + trail
    ensures AllWhiteSpace(lead) && AllWhiteSpace(trail)
  {
    var t := TrimStart(s);
    var r := TrimEnd(t);
    lead, trail := s[..|s| - |t|], t[|r|..];
    Glue(s, t, r);
  }

  /** A suffix `t` of `s` and a prefix `r` of `t` cut `s` into three pieces. */
  lemma Glue(s: string, t: string, r: string)
    requires |t| <= |s| && t == s[|s| - |t|..]
    requires |r| <= |t| && r == t[..|r|]
    ensures s == s[..|s| - |t|] + r + t[|r|..]
  {
    assert t == r + t[|r|..];
    assert s == s[..|s| - |t|] + t;
  }

  lemma TrimIdempotent(s: string)
    ensures Trim(Trim(s)) == Trim(s)
  {
  }

  /** A string is all white space exactly when trimming leaves nothing. */
  lemma TrimEmptyIffWhiteSpace(s: string)
    ensures AllWhiteSpace(s) <==> Trim(s) == ""
  {
    if AllWhiteSpace(s) {
      assert s == s + [] + [];
      TrimCharacterized(s, s, [], []);
    }
  }

  /** Invariant upper-casing of one character, modelled on ASCII: `a`..`z` become `A`..`Z`. */
  function ToUpperChar(c: char): char {
    if 'a' <= c <= 'z' then (c as int - 32) as char else c
  }

  predicate HasNoLowerAscii(s: string) {
    forall i :: 0 <= i < |s| ==> !('a' <= s[i] <= 'z')
  }

  /** `string.ToUpperInvariant()`, character by character. */
  function ToUpperInvariant(s: string): (r: string)
    ensures |r| == |s|
    ensures HasNoLowerAscii(r)
    ensures forall i :: 0 <= i < |s| ==> IsWhiteSpace(r[i]) == IsWhiteSpace(s[i])
    ensures HasNoLowerAscii(s) ==> r == s
    ensures forall i :: 0 <= i < |s| && !('a' <= s[i] <= 'z') ==> r[i] == s[i]
    ensures forall i :: 0 <= i < |s| && 'a' <= s[i] <= 'z' ==> r[i] as int - 'A' as int == s[i] as int - 'a' as int
  {
    seq(|s|, i requires 0 <= i < |s| => ToUpperChar(s[i]))
  }
}
