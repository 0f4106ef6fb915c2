/** The .NET string operations the analysis client relies on:
    `Char.IsWhiteSpace`, `String.Trim`, `String.TrimStart(char)`,
    `String.IndexOf(char)`, `String.LastIndexOf(char)`,
    `String.IsNullOrEmpty` and `String.IsNullOrWhiteSpace`.
    A `null` string is `None`. */
module Text {
  import opened Wrappers

  type Text = string

  /** The byte-order mark, which `Char.IsWhiteSpace` does not count as white space. */
  const Bom: char := '\U{FEFF}'

  /** `Char.IsWhiteSpace`: the Unicode separators plus the C0 and C1 control
      characters that .NET treats as white space. */
  predicate IsWhiteSpace(c: char) {
    ('\U{0009}' <= c <= '\U{000D}') || c == ' ' || c == '\U{0085}' || c == '\U{00A0}'
    || c == '\U{1680}' || ('\U{2000}' <= c <= '\U{200A}') || c == '\U{2028}'
    || c == '\U{2029}' || c == '\U{202F}' || c == '\U{205F}' || c == '\U{3000}'
  }

  predicate AllWhiteSpace(s: Text) {
    forall i :: 0 <= i < |s| ==> IsWhiteSpace(s[i])
  }

  /** `String.IsNullOrWhiteSpace`. */
  predicate IsNullOrWhiteSpace(s: Option<Text>) {
    s.None? || AllWhiteSpace(s.value)
  }

  /** `String.IsNullOrEmpty`. */
  predicate IsNullOrEmpty(s: Option<Text>) {
    s.None? || s.value == []
  }

  /** Leading white space removed: the result is a suffix of `s`, everything
      cut off is white space and the result does not start with white space. */
  function TrimStart(s: Text): (r: Text)
    ensures |r| <= |s| && r == s[|s| - |r|..]
    ensures AllWhiteSpace(s[..|s| - |r|])
    ensures r != [] ==> !IsWhiteSpace(r[0])
  {
    if s != [] && IsWhiteSpace(s[0]) then TrimStart(s[1..]) else s
  }

  /** Trailing white space removed: the result is a prefix of `s`, everything
      cut off is white space and the result does not end with white space. */
  function TrimEnd(s: Text): (r: Text)
    ensures |r| <= |s| && r == s[..|r|]
    ensures AllWhiteSpace(s[|r|..])
    ensures r != [] ==> !IsWhiteSpace(r[|r| - 1])
  {
    if s != [] && IsWhiteSpace(s[|s| - 1]) then
      var r := TrimEnd(s[..|s| - 1]);
      assert s[|r|..] == s[..|s| - 1][|r|..] + [s[|s| - 1]];
      r
    else s
  }

  /** `String.Trim()`: the slice of `s` that starts after the leading white
      space, with only white space after it, and that neither starts nor ends
      with white space. */
  function Trim(s: Text): (r: Text)
    ensures var k := |s| - |TrimStart(s)|;
            k + |r| <= |s| && r == s[k..k + |r|] && AllWhiteSpace(s[..k]) && AllWhiteSpace(s[k + |r|..])
    ensures r != [] ==> !IsWhiteSpace(r[0]) && !IsWhiteSpace(r[|r| - 1])
  {
    var t := TrimStart(s);
    var r := TrimEnd(t);
    SliceOfSuffix(s, t, r);
    r
  }

  /** A prefix `r` of a suffix `t` of `s` is a slice of `s`, and what follows
      it in `t` is what follows it in `s`. */
  lemma SliceOfSuffix(s: Text, t: Text, r: Text)
    requires |t| <= |s| && t == s[|s| - |t|..]
    requires |r| <= |t| && r == t[..|r|]
    ensures var k := |s| - |t|; r == s[k..k + |r|] && s[k + |r|..] == t[|r|..]
  {
  }

  /** `Trim()` leaves nothing exactly when the text is all white space. */
  lemma TrimEmptyIff(s: Text)
    ensures Trim(s) == [] <==> AllWhiteSpace(s)
  {
    var t := TrimStart(s);
    var r := TrimEnd(t);
    assert Trim(s) == r;
    if r == [] {
      // all of `t` is white space, so `TrimStart` left nothing
      assert AllWhiteSpace(t) by { assert t[|r|..] == t; }
      assert t == [];
      assert s[..|s|] == s;
    }
  }

  /** Text that neither starts nor ends with white space is its own trim. */
  lemma TrimUnchanged(s: Text)
    requires s != [] ==> !IsWhiteSpace(s[0]) && !IsWhiteSpace(s[|s| - 1])
    ensures Trim(s) == s
  {
    assert TrimStart(s) == s;
    assert TrimEnd(s) == s;
  }

  /** `String.TrimStart(c)`: every leading occurrence of `c` removed. */
  function TrimStartChar(s: Text, c: char): (r: Text)
    ensures |r| <= |s| && r == s[|s| - |r|..]
    ensures forall i :: 0 <= i < |s| - |r| ==> s[i] == c
    ensures r != [] ==> r[0] != c
  {
    if s != [] && s[0] == c then TrimStartChar(s[1..], c) else s
  }

  /** Text that does not start with `c` has nothing to cut. */
  lemma TrimStartCharUnchanged(s: Text, c: char)
    requires s != [] ==> s[0] != c
    ensures TrimStartChar(s, c) == s
  {
  }

  /** `String.IndexOf(c)`: the position of the first `c`, or -1 when there is none. */
  function IndexOf(s: Text, c: char): (r: int)
    ensures -1 <= r < |s|
    ensures r == -1 <==> c !in s
    ensures r >= 0 ==> s[r] == c && c !in s[..r]
  {
    if s == [] then -1
    else if s[0] == c then 0
    else
      var k := IndexOf(s[1..], c);
      assert s == [s[0]] + s[1..];
      if k < 0 then -1
      else
        assert s[..k + 1] == [s[0]] + s[1..][..k];
        k + 1
  }

  /** The first `c` is at `i` when `s[i]` is `c` and no `c` comes before it. */
  lemma IndexOfAt(s: Text, c: char, i: int)
    requires 0 <= i < |s| && s[i] == c && c !in s[..i]
    ensures IndexOf(s, c) == i
  {
  }

  /** `String.LastIndexOf(c)`: the position of the last `c`, or -1 when there is none. */
  function LastIndexOf(s: Text, c: char): (r: int)
    ensures -1 <= r < |s|
    ensures r == -1 <==> c !in s
    ensures r >= 0 ==> s[r] == c && c !in s[r + 1..]
  {
    if s == [] then -1
    else if s[|s| - 1] == c then |s| - 1
    else
      var k := LastIndexOf(s[..|s| - 1], c);
      assert s == s[..|s| - 1] + [s[|s| - 1]];
      if k < 0 then -1
      else
        assert s[k + 1..] == s[..|s| - 1][k + 1..] + [s[|s| - 1]];
        k
  }

  /** The last `c` is at `j` when `s[j]` is `c` and no `c` comes after it. */
  lemma LastIndexOfAt(s: Text, c: char, j: int)
    requires 0 <= j < |s| && s[j] == c && c !in s[j + 1..]
    ensures LastIndexOf(s, c) == j
  {
  }
}
