/**
 * The two string operations the chat fallback relies on: lower-casing
 * (`String.prototype.toLowerCase`, restricted to ASCII letters) and
 * substring search (`String.prototype.includes`).
 */
module Text {

  function LowerChar(c: char): char {
    if 'A' <= c <= 'Z' then (c as int + 32) as char else c
  }

  function UpperChar(c: char): char {
    if 'a' <= c <= 'z' then (c as int - 32) as char else c
  }

  /** The string with every ASCII capital replaced by its small letter. */
  function Lower(s: string): (r: string)
    ensures |r| == |s|
    ensures forall i :: 0 <= i < |s| ==> r[i] == LowerChar(s[i])
  {
    if |s| == 0 then "" else [LowerChar(s[0])] + Lower(s[1..])
  }

  /** The string with every ASCII small letter replaced by its capital. */
  function Upper(s: string): (r: string)
    ensures |r| == |s|
    ensures forall i :: 0 <= i < |s| ==> r[i] == UpperChar(s[i])
  {
    if |s| == 0 then "" else [UpperChar(s[0])] + Upper(s[1..])
  }

  /** Two strings that differ at most in the case of their letters. */
  ghost predicate SameUpToCase(a: string, b: string) {
    |a| == |b| && forall i :: 0 <= i < |a| ==> LowerChar(a[i]) == LowerChar(b[i])
  }

  lemma LowerCharOfUpperChar(c: char)
    ensures LowerChar(UpperChar(c)) == LowerChar(c)
  {}

  /** Strings that agree up to case have the same lower-cased form, and conversely. */
  lemma LowerDecidesCase(a: string, b: string)
    ensures SameUpToCase(a, b) <==> Lower(a) == Lower(b)
  {
    if Lower(a) == Lower(b) {
      assert |a| == |b|;
      forall i | 0 <= i < |a|
        ensures LowerChar(a[i]) == LowerChar(b[i])
      {
        assert Lower(a)[i] == Lower(b)[i];
      }
    }
  }

  /** Upper-casing a string, or lower-casing it, keeps it the same up to case. */
  lemma CaseChangesAreSameUpToCase(s: string)
    ensures SameUpToCase(s, Upper(s))
    ensures SameUpToCase(s, Lower(s))
  {
    forall i | 0 <= i < |s|
      ensures LowerChar(s[i]) == LowerChar(Upper(s)[i])
    {
      LowerCharOfUpperChar(s[i]);
    }
  }

  /** `p` occurs in `s` starting at position `i`. */
  ghost predicate OccursAt(s: string, p: string, i: int) {
    0 <= i && i + |p| <= |s| && s[i..i + |p|] == p
  }

  /** `s.includes(p)`: some position of `s` starts an occurrence of `p`. */
  function Contains(s: string, p: string): (b: bool)
    ensures b <==> exists i :: OccursAt(s, p, i)
    decreases |s|
  {
    if |p| <= |s| && s[..|p|] == p then
      assert OccursAt(s, p, 0);
      true
    else if |s| == 0 then
      false
    else
      var b := Contains(s[1..], p);
      assert b ==> exists i :: OccursAt(s, p, i) by {
        if b {
          var j :| OccursAt(s[1..], p, j);
          assert s[1..][j..j + |p|] == s[j + 1..j + 1 + |p|];
          assert OccursAt(s, p, j + 1);
        }
      }
      assert (exists i :: OccursAt(s, p, i)) ==> b by {
        if exists i :: OccursAt(s, p, i) {
          var i :| OccursAt(s, p, i);
          assert i != 0;
          assert s[1..][i - 1..i - 1 + |p|] == s[i..i + |p|];
          assert OccursAt(s[1..], p, i - 1);
        }
      }
      b
  }
}
