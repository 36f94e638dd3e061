/**
 Substring search on strings, as JavaScript's `String.prototype.includes` performs it:
 an exact, case-sensitive comparison of characters at some offset.
 */
module Strings {

  /** `sub` occurs in `s` starting at offset `i`. */
  predicate OccursAt(s: string, sub: string, i: int) {
    0 <= i && i + |sub| <= |s| && s[i..i + |sub|] == sub
  }

  /** Reference definition: some offset of `s` holds `sub`. */
  ghost predicate Contains(s: string, sub: string) {
    exists i :: OccursAt(s, sub, i)
  }

  /** Dropping the first character of `s` loses no occurrence when `sub` is not a prefix of `s`. */
  lemma {:induction false} ContainsTail(s: string, sub: string)
    requires |sub| <= |s| && !(sub <= s)
    ensures Contains(s, sub) <==> Contains(s[1..], sub)
  {
    if Contains(s, sub) {
      var i :| OccursAt(s, sub, i);
      assert i != 0;
      assert s[1..][i - 1..i - 1 + |sub|] == s[i..i + |sub|];
      assert OccursAt(s[1..], sub, i - 1);
    }
    if Contains(s[1..], sub) {
      var j :| OccursAt(s[1..], sub, j);
      assert s[1..][j..j + |sub|] == s[j + 1..j + 1 + |sub|];
      assert OccursAt(s, sub, j + 1);
    }
  }

  /** An occurrence of a non-empty word starts with the word's first character. */
  lemma OccurrenceStart(s: string, sub: string, i: int)
    requires |sub| > 0 && OccursAt(s, sub, i)
    ensures s[i] == sub[0]
  {
    assert s[i..i + |sub|][0] == s[i];
  }

  /** A non-empty word cannot occur where its first character never appears. */
  lemma NotContainsByFirstChar(s: string, sub: string)
    requires |sub| > 0
    requires forall i :: 0 <= i <= |s| - |sub| ==> s[i] != sub[0]
    ensures !Contains(s, sub)
  {
    if Contains(s, sub) {
      var i :| OccursAt(s, sub, i);
      OccurrenceStart(s, sub, i);
      assert false;
    }
  }

  /** `s.includes(sub)`: scans the offsets of `s` from left to right. */
  function Includes(s: string, sub: string): (r: bool)
    ensures r <==> Contains(s, sub)
    decreases |s|
  {
    if |s| < |sub| then
      false
    else if sub <= s then
      assert OccursAt(s, sub, 0);
      true
    else
      ContainsTail(s, sub);
      Includes(s[1..], sub)
  }
}
