/** Python's `needle in haystack` on strings: a case-sensitive search for a
    contiguous occurrence, true for the empty needle. */
module Substring {

  /** `needle` occurs in `s` starting at position `i`. */
  ghost predicate OccursAt(s: string, needle: string, i: nat)
  {
    i + |needle| <= |s| && s[i..i + |needle|] == needle
  }

  /** The declarative meaning of `needle in s`. */
  ghost predicate IsSubstring(s: string, needle: string)
  {
    exists i: nat :: OccursAt(s, needle, i)
  }

  /** An occurrence in the tail of `s` is an occurrence in `s` one place
      further on, and every occurrence in `s` past position 0 comes from one
      in the tail. */
  lemma TailOccurrence(s: string, needle: string)
    requires |s| > 0
    ensures IsSubstring(s[1..], needle) <==> exists i: nat :: 1 <= i && OccursAt(s, needle, i)
  {
    if IsSubstring(s[1..], needle) {
      var i: nat :| OccursAt(s[1..], needle, i);
      assert s[1..][i..i + |needle|] == s[i + 1..i + 1 + |needle|];
      assert OccursAt(s, needle, i + 1);
    }
    if exists i: nat :: 1 <= i && OccursAt(s, needle, i) {
      var i: nat :| 1 <= i && OccursAt(s, needle, i);
      assert s[1..][i - 1..i - 1 + |needle|] == s[i..i + |needle|];
      assert OccursAt(s[1..], needle, i - 1);
    }
  }

  /** A search with the same result as Python's `needle in s`: try
      position 0, then the rest of the string. */
  function Contains(s: string, needle: string): (r: bool)
    decreases |s|
    ensures r <==> IsSubstring(s, needle)
  {
    if |needle| <= |s| && s[..|needle|] == needle then
      assert OccursAt(s, needle, 0);
      true
    else if |s| == 0 then
      assert forall i: nat :: !OccursAt(s, needle, i);
      false
    else
      var rest := Contains(s[1..], needle);
      TailOccurrence(s, needle);
      assert !OccursAt(s, needle, 0);
      assert IsSubstring(s, needle) ==> exists i: nat :: 1 <= i && OccursAt(s, needle, i) by {
        if IsSubstring(s, needle) {
          var i: nat :| OccursAt(s, needle, i);
          assert i != 0;
        }
      }
      rest
  }

  /** Every character of the needle appears in any string that contains it;
      a string lacking one of them does not contain the needle. */
  lemma NeedleCharsOccur(s: string, needle: string, k: nat)
    requires k < |needle|
    ensures IsSubstring(s, needle) ==> needle[k] in s
  {
    if IsSubstring(s, needle) {
      var i: nat :| OccursAt(s, needle, i);
      assert s[i..i + |needle|][k] == s[i + k];
    }
  }
}
