/** Text helpers shared by the form cleaners and the cookie reader. */
module Text {

  /** The characters Python's `str.strip()` and JavaScript's `trim()` remove, restricted to ASCII whitespace. */
  predicate IsSpace(c: char)
  {
    c == ' ' || c == '\t' || c == '\n' || c == '\r' || c == '\U{000B}' || c == '\U{000C}'
  }

  /** `s` with its leading whitespace removed. */
  function StripLeft(s: string): (r: string)
    ensures |r| <= |s| && r == s[|s| - |r|..]
    ensures forall k :: 0 <= k < |s| - |r| ==> IsSpace(s[k])
    ensures r != [] ==> !IsSpace(r[0])
  {
    if s != [] && IsSpace(s[0]) then StripLeft(s[1..]) else s
  }

  /** `s` with its trailing whitespace removed. */
  function StripRight(s: string): (r: string)
    ensures |r| <= |s| && r == s[..|r|]
    ensures forall k :: |r| <= k < |s| ==> IsSpace(s[k])
    ensures r != [] ==> !IsSpace(r[|r| - 1])
  {
    if s != [] && IsSpace(s[|s| - 1]) then StripRight(s[..|s| - 1]) else s
  }

  /** Python's `str.strip()`, JavaScript's `String.prototype.trim()`. */
  function Strip(s: string): string
  {
    StripRight(StripLeft(s))
  }

  /** A stripped text is left alone by a second strip. */
  lemma StripIdempotent(s: string)
    ensures Strip(Strip(s)) == Strip(s)
  {
    var l := StripLeft(s);
    var r := StripRight(l);
    if r != [] {
      assert r[0] == l[0];
      assert StripLeft(r) == r;
      assert StripRight(r) == r;
    }
  }
}
