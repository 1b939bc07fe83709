/** Python's `str.strip()` with no argument: removes leading and trailing
    characters for which `str.isspace()` holds. */
module PyStr {

  /** The characters `str.isspace()` accepts: the ASCII whitespace and
      separator controls, NEL, NO-BREAK SPACE and the Unicode space and
      line/paragraph separators. No visible ASCII character (letters, digits,
      punctuation) is among them. */
  predicate IsSpace(c: char)
    ensures IsSpace(c) ==> !('!' <= c <= '~')
  {
    || c == ' ' || c == '\t' || c == '\n' || c == '\r'
    || c == '\U{B}' || c == '\U{C}'
    || ('\U{1C}' <= c <= '\U{1F}')
    || c == '\U{85}' || c == '\U{A0}' || c == '\U{1680}'
    || ('\U{2000}' <= c <= '\U{200A}')
    || c == '\U{2028}' || c == '\U{2029}' || c == '\U{202F}'
    || c == '\U{205F}' || c == '\U{3000}'
  }

  /** Drops the longest whitespace prefix: the result is a suffix of `s`, every
      dropped character is whitespace, and the result does not start with one. */
  function TrimStart(s: string): (r: string)
    ensures |r| <= |s| && r == s[|s| - |r|..]
    ensures forall i :: 0 <= i < |s| - |r| ==> IsSpace(s[i])
    ensures r == [] || !IsSpace(r[0])
  {
    if |s| > 0 && IsSpace(s[0]) then TrimStart(s[1..]) else s
  }

  /** Drops the longest whitespace suffix: the result is a prefix of `s`, every
      dropped character is whitespace, and the result does not end with one. */
  function TrimEnd(s: string): (r: string)
    ensures |r| <= |s| && r == s[..|r|]
    ensures forall i :: |r| <= i < |s| ==> IsSpace(s[i])
    ensures r == [] || !IsSpace(r[|r| - 1])
  {
    if |s| > 0 && IsSpace(s[|s| - 1]) then TrimEnd(s[..|s| - 1]) else s
  }

  /** `s.strip()`: the result is a contiguous slice of `s`, everything cut off
      on either side is whitespace, and the result neither starts nor ends
      with whitespace; so exactly the whitespace at both ends is removed. */
  function Strip(s: string): (r: string)
    ensures exists i, j :: && 0 <= i <= j <= |s| && r == s[i..j]
                           && (forall k :: 0 <= k < i ==> IsSpace(s[k]))
                           && (forall k :: j <= k < |s| ==> IsSpace(s[k]))
    ensures r == [] || (!IsSpace(r[0]) && !IsSpace(r[|r| - 1]))
  {
    var t := TrimStart(s);
    var r := TrimEnd(t);
    assert r == s[|s| - |t|..|s| - |t| + |r|];
    r
  }

  /** A string that starts with a non-space and ends with exactly one
      whitespace character loses exactly that character. */
  lemma {:induction false} StripDropsLastOnly(s: string)
    requires |s| >= 2 && !IsSpace(s[0])
    requires IsSpace(s[|s| - 1]) && !IsSpace(s[|s| - 2])
    ensures Strip(s) == s[..|s| - 1]
  {
    assert TrimStart(s) == s;
    var r := TrimEnd(s);
    assert s[|s| - 2] == r[|s| - 2] by {
      assert !IsSpace(s[|s| - 2]);
    }
  }
}
