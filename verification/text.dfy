/** Python's `str.strip()` with no argument, as the blank-input check uses it. */
module Text {

  /** The characters Python's `str.isspace` accepts, which are the ones
      `str.strip()` removes. */
  predicate IsSpace(c: char)
  {
    || ('\U{09}' <= c <= '\U{0D}')       // tab, line feed, vertical tab, form feed, carriage return
    || ('\U{1C}' <= c <= '\U{20}')       // file/group/record/unit separators, space
    || c == '\U{85}' || c == '\U{A0}' || c == '\U{1680}'
    || ('\U{2000}' <= c <= '\U{200A}')
    || c == '\U{2028}' || c == '\U{2029}' || c == '\U{202F}' || c == '\U{205F}' || c == '\U{3000}'
  }

  predicate AllSpace(s: string)
  {
    forall i :: 0 <= i < |s| ==> IsSpace(s[i])
  }

  /** Drops leading whitespace. */
  function TrimStart(s: string): (r: string)
    ensures |r| <= |s| && r == s[|s| - |r|..]
    ensures AllSpace(s[..|s| - |r|])
    ensures |r| > 0 ==> !IsSpace(r[0])
  {
    if |s| > 0 && IsSpace(s[0]) then TrimStart(s[1..]) else s
  }

  /** Drops trailing whitespace. */
  function TrimEnd(s: string): (r: string)
    ensures |r| <= |s| && r == s[..|r|]
    ensures AllSpace(s[|r|..])
    ensures |r| > 0 ==> !IsSpace(r[|r| - 1])
  {
    if |s| > 0 && IsSpace(s[|s| - 1]) then TrimEnd(s[..|s| - 1]) else s
  }

  /** `s.strip()`: the longest infix of `s` that neither starts nor ends
      with whitespace. */
  function Strip(s: string): (r: string)
    ensures exists i, j :: 0 <= i <= j <= |s| && r == s[i..j] && AllSpace(s[..i]) && AllSpace(s[j..])
    ensures |r| > 0 ==> !IsSpace(r[0]) && !IsSpace(r[|r| - 1])
    ensures r == "" <==> AllSpace(s)
  {
    TrimEnd(TrimStart(s))
  }

  /** The guard `not audio_data or audio_data.strip() == ""`. */
  predicate IsBlank(s: string)
  {
    |s| == 0 || Strip(s) == ""
  }

  /** The guard rejects exactly the strings made only of whitespace,
      the empty string included. */
  lemma BlankIffAllSpace(s: string)
    ensures IsBlank(s) <==> AllSpace(s)
  {
  }
}
