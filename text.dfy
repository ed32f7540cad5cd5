/** Strings as sequences of characters, and the one relation on them that the
    class-name mappings need. */
module Substrings {

  /** `t` occurs in `s` starting at position `i`. */
  predicate OccursAt(s: string, t: string, i: int)
  {
    0 <= i && i + |t| <= |s| && s[i..i + |t|] == t
  }

  /** `t` occurs in `s` as a contiguous block (JavaScript's `s.includes(t)`). */
  predicate Contains(s: string, t: string)
  {
    exists i | 0 <= i <= |s| - |t| :: OccursAt(s, t, i)
  }

  /** One differing character rules out an occurrence at `i`. */
  lemma MismatchAt(s: string, t: string, i: int, j: int)
    requires 0 <= i && i + |t| <= |s|
    requires 0 <= j < |t| && s[i + j] != t[j]
    ensures !OccursAt(s, t, i)
  {
    assert s[i..i + |t|][j] == s[i + j];
  }
}
