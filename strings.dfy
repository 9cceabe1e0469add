/** The string tests the locator code performs with Python's `in`, `startswith`, `split`, `lower`
    and a regular expression, over `string` = `seq<char>`. */
module Strings {

  /** Python's `sub in s` for strings. */
  predicate Contains(s: string, sub: string) {
    exists i | 0 <= i <= |s| - |sub| :: OccursAt(s, sub, i)
  }

  /** `sub` occurs in `s` starting at position `i`. */
  predicate OccursAt(s: string, sub: string, i: int) {
    0 <= i && i + |sub| <= |s| && s[i..i + |sub|] == sub
  }

  /** Python's `s.startswith(prefix)`. */
  predicate StartsWith(s: string, prefix: string) {
    |prefix| <= |s| && s[..|prefix|] == prefix
  }

  predicate IsDigit(c: char) {
    '0' <= c <= '9'
  }

  /** A match of the regular expression `\[\d+\]`: an opening bracket, one or more digits, a
      closing bracket. */
  predicate HasBracketedIndex(s: string) {
    exists i, j | 0 <= i && i + 1 < j < |s| :: BracketedIndexAt(s, i, j)
  }

  /** `s[i..j + 1]` is an opening bracket, one or more digits and a closing bracket. */
  predicate BracketedIndexAt(s: string, i: int, j: int) {
    0 <= i && i + 1 < j < |s| && s[i] == '[' && s[j] == ']' && AllDigits(s[i + 1..j])
  }

  predicate AllDigits(s: string) {
    forall k | 0 <= k < |s| :: IsDigit(s[k])
  }

  function LowerChar(c: char): char {
    if 'A' <= c <= 'Z' then (c as int + 32) as char else c
  }

  /** Python's `s.lower()` on ASCII letters. */
  function Lower(s: string): (r: string)
    ensures |r| == |s|
    ensures forall i | 0 <= i < |s| :: r[i] == LowerChar(s[i])
  {
    seq(|s|, i requires 0 <= i < |s| => LowerChar(s[i]))
  }

  /** Position of the first occurrence of `c`, as `s.split(c, 1)` finds it. */
  function IndexOf(s: string, c: char): (i: nat)
    requires c in s
    ensures i < |s| && s[i] == c
    ensures c !in s[..i]
  {
    if s[0] == c then 0
    else
      assert c in s[1..];
      var j := IndexOf(s[1..], c);
      assert s[..j + 1] == [s[0]] + s[1..][..j];
      j + 1
  }

}
