/** Stand-in for Foundation's `trimmingCharacters(in:)` and the character set
    `.whitespacesAndNewlines` that the diary screen's guard passes to it. */
module Trimming {

  /** `.whitespacesAndNewlines`: the Unicode separators (general category
      Z*), the controls U+0009 to U+000D and U+0085. */
  const WhitespacesAndNewlines: set<char> :=
    {'\t', '\n', '\U{000B}', '\U{000C}', '\r', ' ', '\U{0085}', '\U{00A0}', '\U{1680}',
     '\U{2000}', '\U{2001}', '\U{2002}', '\U{2003}', '\U{2004}', '\U{2005}', '\U{2006}',
     '\U{2007}', '\U{2008}', '\U{2009}', '\U{200A}', '\U{2028}', '\U{2029}', '\U{202F}',
     '\U{205F}', '\U{3000}'}

  /** Every character of `s` belongs to `cs` (the empty string included). */
  predicate AllIn(s: string, cs: set<char>) {
    forall i :: 0 <= i < |s| ==> s[i] in cs
  }

  /** Empty, or whitespace and newlines only. */
  predicate IsBlank(s: string) {
    AllIn(s, WhitespacesAndNewlines)
  }

  /** Drops the longest prefix made of characters of `cs`. */
  function TrimStart(s: string, cs: set<char>): (r: string)
    ensures |r| <= |s| && r == s[|s| - |r|..]
    ensures AllIn(s[..|s| - |r|], cs)
    ensures r != [] ==> r[0] !in cs
  {
    if s != [] && s[0] in cs then
      var r := TrimStart(s[1..], cs);
      assert s[1..][|s| - 1 - |r|..] == s[|s| - |r|..];
      assert forall i :: 0 < i < |s| - |r| ==> s[i] == s[1..][..|s| - 1 - |r|][i - 1];
      r
    else s
  }

  /** Drops the longest suffix made of characters of `cs`. */
  function TrimEnd(s: string, cs: set<char>): (r: string)
    ensures |r| <= |s| && r == s[..|r|]
    ensures AllIn(s[|r|..], cs)
    ensures r != [] ==> r[|r| - 1] !in cs
  {
    if s != [] && s[|s| - 1] in cs then
      var r := TrimEnd(s[..|s| - 1], cs);
      assert s[..|s| - 1][..|r|] == s[..|r|];
      assert forall i :: |r| <= i < |s| - 1 ==> s[i] == s[..|s| - 1][|r|..][i - |r|];
      r
    else s
  }

  /** `s.trimmingCharacters(in: cs)`: characters of `cs` removed from both ends. */
  function TrimmingCharacters(s: string, cs: set<char>): (r: string)
    ensures |r| <= |s|
    ensures r != [] ==> r[0] !in cs && r[|r| - 1] !in cs
    ensures var t := TrimStart(s, cs); |r| <= |t| && r == t[..|r|] && AllIn(t[|r|..], cs)
  {
    var t := TrimStart(s, cs);
    var r := TrimEnd(t, cs);
    assert r != [] ==> r[0] == t[0];
    r
  }

  /** The guard of the diary screen: trimming leaves nothing exactly when
      every character of the text is in the set. */
  lemma TrimEmptyIffAllIn(s: string, cs: set<char>)
    ensures TrimmingCharacters(s, cs) == [] <==> AllIn(s, cs)
  {
    var t := TrimStart(s, cs);
    var lo := |s| - |t|;
    if TrimmingCharacters(s, cs) == [] {
      assert t == [];
      assert s[..lo] == s;
    } else {
      assert t != [] && s[lo] == t[0];
    }
  }

  /** Sample texts: spaces, tabs and newlines alone (or nothing) are blank;
      a single visible character, wherever it stands, is not. */
  lemma BlankExamples()
    ensures IsBlank("") && IsBlank("   ") && IsBlank(" \t\r\n\U{00A0}\U{3000}")
    ensures !IsBlank("Had a good day") && !IsBlank("  A\n")
  {
    assert "Had a good day"[0] == 'H';
    assert "  A\n"[2] == 'A';
  }

  /** The diary screen's guard,
      `text.trimmingCharacters(in: .whitespacesAndNewlines).isEmpty`:
      true exactly for blank text. */
  method TrimsToEmpty(text: string) returns (empty: bool)
    ensures empty <==> IsBlank(text)
  {
    empty := TrimmingCharacters(text, WhitespacesAndNewlines) == [];
    TrimEmptyIffAllIn(text, WhitespacesAndNewlines);
  }
}
