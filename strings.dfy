/**
 * The few string operations the rule engine relies on: `startswith`,
 * `endswith`, substring containment (`a in b` on two str), and the ASCII
 * lower-casing of Python 2's `str.lower`.
 */
module Strings {

  /** `s.startswith(prefix)`. */
  predicate StartsWith(s: string, prefix: string)
  {
    |prefix| <= |s| && s[..|prefix|] == prefix
  }

  /** `s.endswith(suffix)`. */
  predicate EndsWith(s: string, suffix: string)
  {
    |suffix| <= |s| && s[|s| - |suffix|..] == suffix
  }

  /** `part in whole` for two strings: `part` occurs somewhere in `whole`. */
  predicate IsSubstring(part: string, whole: string)
  {
    StartsWith(whole, part) || (whole != [] && IsSubstring(part, whole[1..]))
  }

  /** Two prefixes with different first characters cannot both begin the same string. */
  lemma PrefixesExclusive(s: string, p: string, q: string)
    requires StartsWith(s, p) && p != [] && q != [] && p[0] != q[0]
    ensures !StartsWith(s, q)
  {
    assert s[..|p|][0] == s[0];
    if |q| <= |s| {
      assert s[..|q|][0] == s[0];
    }
  }

  /** A string with a character that `whole` lacks does not occur in `whole`. */
  lemma {:induction false} MissingCharNotSubstring(part: string, whole: string, i: nat)
    requires i < |part| && part[i] !in whole
    ensures !IsSubstring(part, whole)
  {
    assert !StartsWith(whole, part) by {
      if |part| <= |whole| {
        assert whole[..|part|][i] == whole[i];
      }
    }
    if whole != [] {
      MissingCharNotSubstring(part, whole[1..], i);
    }
  }

  function LowerChar(c: char): char
  {
    if 'A' <= c <= 'Z' then (c as int + 32) as char else c
  }

  /** `s.lower()` on a byte string: only the letters A-Z change. */
  function Lower(s: string): (r: string)
    ensures |r| == |s|
    ensures forall i :: 0 <= i < |s| ==> r[i] == LowerChar(s[i])
  {
    if s == [] then [] else [LowerChar(s[0])] + Lower(s[1..])
  }
}
