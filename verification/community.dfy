/** `check_layeredge_community`: the keyword classifier applied to tweet text. */
module Community {
  import opened Strings

  const Mention: string := "@layeredge"
  const Ticker: string := "$edgen"

  /** `str.lower` on one character, restricted to ASCII letters. */
  function LowerChar(c: char): char {
    if 'A' <= c <= 'Z' then (c as int - 'A' as int + 'a' as int) as char else c
  }

  /** `str.lower` on a string, restricted to ASCII letters. */
  function Lower(s: string): (t: string)
    ensures |t| == |s|
  {
    seq(|s|, i requires 0 <= i < |s| => LowerChar(s[i]))
  }

  /** `pat` occurs in `s` at `p` when the letters of `s` are compared without regard to case. */
  predicate OccursIgnoringCaseAt(pat: string, s: string, p: nat) {
    p + |pat| <= |s| && forall k :: 0 <= k < |pat| ==> LowerChar(s[p + k]) == pat[k]
  }

  lemma OccursInLowerIff(pat: string, s: string, p: nat)
    ensures OccursAt(pat, Lower(s), p) <==> OccursIgnoringCaseAt(pat, s, p)
  {
    if p + |pat| <= |s| {
      var t := Lower(s)[p..p + |pat|];
      assert forall k :: 0 <= k < |pat| ==> t[k] == LowerChar(s[p + k]);
      if OccursIgnoringCaseAt(pat, s, p) {
        assert t == pat;
      }
    }
  }

  /** `check_layeredge_community`: the text mentions `@layeredge` or `$edgen`, in any letter case. */
  function CheckLayerEdgeCommunity(content: string): (b: bool)
    ensures b <==> exists p: nat :: OccursIgnoringCaseAt(Mention, content, p) || OccursIgnoringCaseAt(Ticker, content, p)
  {
    var lower := Lower(content);
    assert forall p: nat :: OccursAt(Mention, lower, p) <==> OccursIgnoringCaseAt(Mention, content, p) by {
      forall p: nat ensures OccursAt(Mention, lower, p) <==> OccursIgnoringCaseAt(Mention, content, p) {
        OccursInLowerIff(Mention, content, p);
      }
    }
    assert forall p: nat :: OccursAt(Ticker, lower, p) <==> OccursIgnoringCaseAt(Ticker, content, p) by {
      forall p: nat ensures OccursAt(Ticker, lower, p) <==> OccursIgnoringCaseAt(Ticker, content, p) {
        OccursInLowerIff(Ticker, content, p);
      }
    }
    Contains(lower, Mention) || Contains(lower, Ticker)
  }

  /** The two texts differ at most in the case of ASCII letters. */
  predicate SameIgnoringCase(a: string, b: string) {
    |a| == |b| && forall i :: 0 <= i < |a| ==> LowerChar(a[i]) == LowerChar(b[i])
  }

  /** Changing the case of letters in the text never changes the classification. */
  lemma {:induction false} CaseDoesNotMatter(a: string, b: string)
    requires SameIgnoringCase(a, b)
    ensures CheckLayerEdgeCommunity(a) == CheckLayerEdgeCommunity(b)
  {
    assert Lower(a) == Lower(b);
  }

  /** A mention written with capitals still counts. */
  lemma CapitalisedMentionCounts()
    ensures CheckLayerEdgeCommunity("gm @LayerEdge")
  {
    assert OccursIgnoringCaseAt(Mention, "gm @LayerEdge", 3);
  }
}
