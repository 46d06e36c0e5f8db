/**
 Substring search on strings, as Python's `needle in haystack` operator
 evaluates it. The simulator resolves every dropdown selection with this
 operator, so its meaning is pinned down here once: some window of the
 haystack equals the needle, and the empty needle occurs in every string.
 */
module Text {

  /** `t` occurs in `s` starting at index `i`. */
  predicate OccursAt(s: string, t: string, i: int) {
    0 <= i && i + |t| <= |s| && s[i..i + |t|] == t
  }

  /** Python's `t in s`: scans `s` from the left for a window equal to `t`. */
  function Contains(s: string, t: string): (b: bool)
    ensures b <==> exists i :: OccursAt(s, t, i)
    decreases |s|
  {
    if |t| > |s| then
      false
    else if s[..|t|] == t then
      assert OccursAt(s, t, 0);
      true
    else
      assert |s| > 0;
      ShiftWindow(s, t);
      Contains(s[1..], t)
  }

  /** Dropping a first character that does not start a match loses no match. */
  lemma ShiftWindow(s: string, t: string)
    requires |s| > 0
    requires !OccursAt(s, t, 0)
    ensures (exists i :: OccursAt(s, t, i)) <==> (exists j :: OccursAt(s[1..], t, j))
  {
    if i :| OccursAt(s, t, i) {
      assert i >= 1;
      assert s[1..][i - 1..i - 1 + |t|] == s[i..i + |t|];
      assert OccursAt(s[1..], t, i - 1);
    }
    if j :| OccursAt(s[1..], t, j) {
      assert s[j + 1..j + 1 + |t|] == s[1..][j..j + |t|];
      assert OccursAt(s, t, j + 1);
    }
  }

  /** A string contains each of its prefixes. */
  lemma PrefixContained(s: string, t: string)
    requires |t| <= |s| && s[..|t|] == t
    ensures Contains(s, t)
  {
    assert OccursAt(s, t, 0);
  }

  /** A non-empty needle whose first character never appears in `s` does not occur in `s`. */
  lemma FirstCharAbsent(s: string, t: string)
    requires |t| > 0 && t[0] !in s
    ensures !Contains(s, t)
  {
    forall i | 0 <= i < |s| ensures !OccursAt(s, t, i) {
      assert s[i] != t[0];
    }
  }

  /** A string whose first character differs from a non-empty word's does not open with that word. */
  lemma OpensDifferently(s: string, t: string)
    requires |t| > 0
    ensures |s| > 0 && s[0] != t[0] ==> !(t <= s)
  {
    if |s| > 0 && s[0] != t[0] && |t| <= |s| {
      assert s[..|t|][0] != t[0];
    }
  }
}
