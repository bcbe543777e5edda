/** The two string operations the classifier is built from: lower-casing and
    substring containment (the `in` operator on strings). */
module Text {

  predicate IsUpper(c: char) {
    'A' <= c <= 'Z'
  }

  /** No character of `s` is an upper-case ASCII letter. */
  predicate IsLowerCase(s: string) {
    forall i :: 0 <= i < |s| ==> !IsUpper(s[i])
  }

  /** ASCII lower-casing of one character; every other character is kept. */
  function LowerChar(c: char): (d: char)
    ensures !IsUpper(d)
    ensures !IsUpper(c) ==> d == c
    ensures IsUpper(c) ==> d as int - c as int == 'a' as int - 'A' as int
  {
    if IsUpper(c) then (c as int - 'A' as int + 'a' as int) as char else c
  }

  /** Lower-casing of a whole string, character by character. */
  function Lower(s: string): (r: string)
    ensures |r| == |s|
    ensures forall i :: 0 <= i < |s| ==> r[i] == LowerChar(s[i])
    ensures IsLowerCase(r)
    ensures IsLowerCase(s) ==> r == s
  {
    seq(|s|, i requires 0 <= i < |s| => LowerChar(s[i]))
  }

  /** Lower-casing twice is lower-casing once. */
  lemma LowerIdempotent(s: string)
    ensures Lower(Lower(s)) == Lower(s)
  {
  }

  /** `p` occurs in `s` starting at position `i`. */
  ghost predicate OccursAt(p: string, s: string, i: int) {
    0 <= i && i + |p| <= |s| && s[i..i + |p|] == p
  }

  /** Reference meaning of Python's `p in s` on strings. */
  ghost predicate IsSubstring(p: string, s: string) {
    exists i :: OccursAt(p, s, i)
  }

  /** An occurrence in `s` other than at the front is an occurrence in `s[1..]`,
      one position earlier, and vice versa. */
  lemma OccursInTail(p: string, s: string, i: int)
    requires 1 <= |s|
    requires 0 <= i
    ensures OccursAt(p, s, i + 1) <==> OccursAt(p, s[1..], i)
  {
  }

  /** A word occurs in any text built around it. */
  lemma OccursBetween(a: string, p: string, b: string)
    ensures IsSubstring(p, a + p + b)
  {
    assert (a + p + b)[|a|..|a| + |p|] == p;
    assert OccursAt(p, a + p + b, |a|);
  }

  /** Containment by scanning `s` from the left: the executable form of `p in s`. */
  function Contains(s: string, p: string): (b: bool)
    ensures b <==> IsSubstring(p, s)
    decreases |s|
  {
    if |s| < |p| then
      false
    else if s[..|p|] == p then
      assert OccursAt(p, s, 0);
      true
    else
      var b := Contains(s[1..], p);
      assert b <==> IsSubstring(p, s) by {
        if b {
          var i :| OccursAt(p, s[1..], i);
          OccursInTail(p, s, i);
        } else if IsSubstring(p, s) {
          var i :| OccursAt(p, s, i);
          assert i != 0;
          OccursInTail(p, s, i - 1);
        }
      }
      b
  }

  /** Python's `any(w in s for w in words)`. */
  function MentionsAny(s: string, words: seq<string>): (b: bool)
    ensures b <==> exists w :: w in words && IsSubstring(w, s)
  {
    if |words| == 0 then false
    else Contains(s, words[0]) || MentionsAny(s, words[1..])
  }

  /** A word cannot occur in a string that lacks one of the word's characters. */
  lemma MissingCharExcludes(p: string, s: string, c: char)
    requires c in p
    requires c !in s
    ensures !IsSubstring(p, s)
  {
  }
}
