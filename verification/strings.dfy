/** Substring occurrence over `string` (`seq<char>`), shared by the URL parsers and the keyword classifier. */
module Strings {

  /** `pat` occurs in `s` starting at index `p`. */
  predicate OccursAt(pat: string, s: string, p: nat) {
    p + |pat| <= |s| && s[p..p + |pat|] == pat
  }

  /** `s` starts with `pat`. */
  predicate StartsWith(s: string, pat: string) {
    OccursAt(pat, s, 0)
  }

  /** An occurrence of `a + b` is an occurrence of `a` immediately followed by one of `b`. */
  lemma OccursAtConcat(a: string, b: string, s: string, p: nat)
    ensures OccursAt(a + b, s, p) <==> OccursAt(a, s, p) && OccursAt(b, s, p + |a|)
  {
    if p + |a| + |b| <= |s| {
      var whole := s[p..p + |a| + |b|];
      assert whole == s[p..p + |a|] + s[p + |a|..p + |a| + |b|];
      if whole == a + b {
        assert whole[..|a|] == a && whole[|a|..] == b;
      }
    }
  }

  /** Left-to-right scan for `pat` from index `i` onwards. */
  function FindFrom(pat: string, s: string, i: nat): (found: bool)
    requires i <= |s|
    ensures found <==> exists p: nat :: i <= p && OccursAt(pat, s, p)
    decreases |s| - i
  {
    if OccursAt(pat, s, i) then true
    else if i == |s| then false
    else FindFrom(pat, s, i + 1)
  }

  /** Python's `pat in s`: `pat` occurs somewhere in `s`. */
  function Contains(s: string, pat: string): (found: bool)
    ensures found <==> exists p: nat :: OccursAt(pat, s, p)
  {
    FindFrom(pat, s, 0)
  }
}
