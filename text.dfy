/** The parts of Python's `str` the provider relies on: `strip()` and `rstrip(c)`. */
module Text {

  /**
   * The characters Python's `str.isspace()` accepts, which are the ones
   * `str.strip()` removes when called without arguments.
   */
  predicate IsSpace(c: char) {
    var n := c as int;
    (0x09 <= n <= 0x0D) || (0x1C <= n <= 0x20) || n == 0x85 || n == 0xA0 || n == 0x1680
    || (0x2000 <= n <= 0x200A) || n == 0x2028 || n == 0x2029 || n == 0x202F
    || n == 0x205F || n == 0x3000
  }

  /** Every character of `s` is whitespace (true of the empty string). */
  predicate AllSpace(s: string) {
    forall i :: 0 <= i < |s| ==> IsSpace(s[i])
  }

  /** `s.lstrip()`: the longest suffix of `s` that does not start with whitespace. */
  function TrimStart(s: string): (r: string)
    ensures |r| <= |s| && r == s[|s| - |r|..]
    ensures AllSpace(s[..|s| - |r|])
    ensures r == [] || !IsSpace(r[0])
    decreases |s|
  {
    if s != [] && IsSpace(s[0]) then TrimStart(s[1..]) else s
  }

  /** `s.rstrip()`: the longest prefix of `s` that does not end with whitespace. */
  function TrimEnd(s: string): (r: string)
    ensures |r| <= |s| && r == s[..|r|]
    ensures AllSpace(s[|r|..])
    ensures r == [] || !IsSpace(r[|r| - 1])
    decreases |s|
  {
    if s != [] && IsSpace(s[|s| - 1]) then
      var r := TrimEnd(s[..|s| - 1]);
      assert s[|r|..] == s[..|s| - 1][|r|..] + [s[|s| - 1]];
      r
    else s
  }

  /**
   * `s.strip()`: `s` without its leading and trailing whitespace. It is empty
   * exactly when `s` is all whitespace.
   */
  function Strip(s: string): (r: string)
    ensures r == [] <==> AllSpace(s)
    ensures r != [] ==> !IsSpace(r[0]) && !IsSpace(r[|r| - 1])
  {
    var t := TrimStart(s);
    var r := TrimEnd(t);
    var n := |s| - |t|;
    assert s[n..n + |r|] == r;
    assert s[n + |r|..] == t[|r|..];
    assert t[0..] == t;
    assert t == [] ==> s[..n] == s;
    assert t != [] ==> s[n] == t[0];
    r
  }

  /** `s` is `r` with `n` whitespace characters before it and only whitespace after it. */
  predicate PaddedAt(s: string, r: string, n: nat) {
    n + |r| <= |s| && s[n..n + |r|] == r && AllSpace(s[..n]) && AllSpace(s[n + |r|..])
  }

  /** `Strip(s)` is a piece of `s` with only whitespace around it. */
  lemma StripKeepsInner(s: string)
    ensures exists n: nat :: PaddedAt(s, Strip(s), n)
  {
    var t := TrimStart(s);
    var r := TrimEnd(t);
    var n: nat := |s| - |t|;
    assert Strip(s) == r;
    assert s[n..n + |r|] == r;
    assert s[n + |r|..] == t[|r|..];
    assert PaddedAt(s, r, n);
  }

  /** `s.rstrip(c)` for one character `c`: `s` with every trailing `c` removed. */
  function TrimEndChar(s: string, c: char): (r: string)
    ensures |r| <= |s| && r == s[..|r|]
    ensures forall i :: |r| <= i < |s| ==> s[i] == c
    ensures r == [] || r[|r| - 1] != c
    decreases |s|
  {
    if s != [] && s[|s| - 1] == c then TrimEndChar(s[..|s| - 1], c) else s
  }
}
