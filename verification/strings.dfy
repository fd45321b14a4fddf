/** The string operations the source uses on bone and object names:
    `toLowerCase`, `includes` and `startsWith`. */
module Strings {

  /** ASCII lower-casing of one character. */
  function LowerChar(c: char): char {
    if 'A' <= c <= 'Z' then (c as int + 32) as char else c
  }

  /** `s.toLowerCase()`, restricted to ASCII letters. */
  function ToLower(s: string): (r: string)
    ensures |r| == |s|
    ensures forall i :: 0 <= i < |s| ==> r[i] == LowerChar(s[i])
  {
    seq(|s|, i requires 0 <= i < |s| => LowerChar(s[i]))
  }

  lemma ToLowerAppend(a: string, b: string)
    ensures ToLower(a + b) == ToLower(a) + ToLower(b)
  {
    assert forall i :: 0 <= i < |a + b| ==> ToLower(a + b)[i] == (ToLower(a) + ToLower(b))[i];
  }

  /** `s.startsWith(p)`. */
  predicate StartsWith(s: string, p: string) {
    |p| <= |s| && s[..|p|] == p
  }

  /** `s.includes(sub)`: `sub` occurs somewhere in `s`. */
  predicate Contains(s: string, sub: string)
    decreases |s|
  {
    StartsWith(s, sub) || (|s| > 0 && Contains(s[1..], sub))
  }

  /** A string that begins with `p` contains every string that `p` contains. */
  lemma {:induction false} ContainsInPrefix(p: string, rest: string, sub: string)
    requires Contains(p, sub)
    ensures Contains(p + rest, sub)
    decreases |p|
  {
    if StartsWith(p, sub) {
      assert (p + rest)[..|sub|] == p[..|sub|];
    } else {
      assert (p + rest)[1..] == p[1..] + rest;
      ContainsInPrefix(p[1..], rest, sub);
    }
  }

  /** A match in `s` is still a match after anything is put in front of it. */
  lemma {:induction false} ContainsInSuffix(p: string, s: string, sub: string)
    requires Contains(s, sub)
    ensures Contains(p + s, sub)
    decreases |p|
  {
    if p != [] {
      assert (p + s)[1..] == p[1..] + s;
      ContainsInSuffix(p[1..], s, sub);
    } else {
      assert p + s == s;
    }
  }
}
