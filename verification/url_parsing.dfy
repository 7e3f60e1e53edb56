/**
 * The two regular-expression extractors of the service, `extract_tweet_id` and
 * `extract_username`, written as left-to-right searches (what `re.search` does)
 * and specified declaratively: the capture is the one of the LEFTMOST match.
 */
module UrlParsing {
  import opened Wrappers
  import opened Strings

  const StatusMarker: string := "/status/"
  const XHost: string := "x.com/"
  const TwitterHost: string := "twitter.com/"

  /** The `ValueError` messages of the two extractors. */
  const InvalidTweetUrl: string := "Invalid tweet URL format"
  const NoUsername: string := "Cannot extract username from URL"

  /** `\d`, restricted to ASCII digits. */
  predicate IsDigit(c: char) {
    '0' <= c <= '9'
  }

  predicate AllDigits(s: string) {
    forall k :: 0 <= k < |s| ==> IsDigit(s[k])
  }

  // ---------------------------------------------------------------------------
  // extract_tweet_id: r'/status/(\d+)'
  // ---------------------------------------------------------------------------

  /** `id` is the group a match of `/status/(\d+)` starting at `p` captures: a
      non-empty digit run right after `/status/` that no further digit extends. */
  predicate TweetIdMatch(s: string, p: nat, id: string) {
    && |id| > 0
    && AllDigits(id)
    && OccursAt(StatusMarker + id, s, p)
    && (p + |StatusMarker| + |id| == |s| || !IsDigit(s[p + |StatusMarker| + |id|]))
  }

  /** End of the greedy digit run that starts at `q`. */
  function DigitRunEnd(s: string, q: nat): (e: nat)
    requires q <= |s|
    ensures q <= e <= |s|
    ensures forall k :: q <= k < e ==> IsDigit(s[k])
    ensures e == |s| || !IsDigit(s[e])
    decreases |s| - q
  {
    if q < |s| && IsDigit(s[q]) then DigitRunEnd(s, q + 1) else q
  }

  /** The regex engine succeeds at start position `p`: `/status/` and at least one digit. */
  predicate TweetIdStartsAt(s: string, p: nat) {
    OccursAt(StatusMarker, s, p) && p + |StatusMarker| < |s| && IsDigit(s[p + |StatusMarker|])
  }

  /** What the group captures at a start position where the engine succeeds. */
  function CapturedDigits(s: string, p: nat): string
    requires TweetIdStartsAt(s, p)
  {
    s[p + |StatusMarker|..DigitRunEnd(s, p + |StatusMarker|)]
  }

  /** A maximal run is determined by where it starts. */
  lemma DigitRunUnique(s: string, q: nat, e: nat)
    requires q <= e <= |s|
    requires forall k :: q <= k < e ==> IsDigit(s[k])
    requires e == |s| || !IsDigit(s[e])
    ensures e == DigitRunEnd(s, q)
  {
  }

  lemma TweetIdMatchCharacterised(s: string, p: nat, id: string)
    ensures TweetIdMatch(s, p, id) <==> TweetIdStartsAt(s, p) && id == CapturedDigits(s, p)
  {
    var q := p + |StatusMarker|;
    OccursAtConcat(StatusMarker, id, s, p);
    if TweetIdMatch(s, p, id) {
      assert s[q..q + |id|] == id;
      assert s[q] == id[0];
      forall k | q <= k < q + |id| ensures IsDigit(s[k]) {
        assert s[k] == id[k - q];
      }
      DigitRunUnique(s, q, q + |id|);
    }
    if TweetIdStartsAt(s, p) && id == CapturedDigits(s, p) {
      var e := DigitRunEnd(s, q);
      assert |id| == e - q;
      assert id[0] == s[q];
      assert OccursAt(id, s, q);
    }
  }

  lemma TweetIdMatchesCharacterised(s: string)
    ensures forall p: nat, id :: TweetIdMatch(s, p, id) <==> TweetIdStartsAt(s, p) && id == CapturedDigits(s, p)
  {
    forall p: nat, id ensures TweetIdMatch(s, p, id) <==> TweetIdStartsAt(s, p) && id == CapturedDigits(s, p) {
      TweetIdMatchCharacterised(s, p, id);
    }
  }

  /** `re.search`: the first start position from `i` on at which the engine succeeds. */
  function SearchTweetId(s: string, i: nat): (p: Option<nat>)
    requires i <= |s|
    ensures p.Some? ==> i <= p.value && TweetIdStartsAt(s, p.value)
    ensures forall q: nat :: i <= q && (p.None? || q < p.value) ==> !TweetIdStartsAt(s, q)
    decreases |s| - i
  {
    if TweetIdStartsAt(s, i) then Some(i)
    else if i == |s| then None
    else SearchTweetId(s, i + 1)
  }

  /** `extract_tweet_id`: the digits after the leftmost `/status/` that has a digit after it. */
  function ExtractTweetId(url: string): (r: Result<string, string>)
    ensures r.Err? <==> forall p: nat, id :: !TweetIdMatch(url, p, id)
    ensures r.Err? ==> r.error == InvalidTweetUrl
    ensures r.Ok? ==> exists p: nat :: TweetIdMatch(url, p, r.value) && forall q: nat, id :: q < p ==> !TweetIdMatch(url, q, id)
  {
    TweetIdMatchesCharacterised(url);
    match SearchTweetId(url, 0)
    case None => Err(InvalidTweetUrl)
    case Some(p) =>
      TweetIdMatchCharacterised(url, p, CapturedDigits(url, p));
      Ok(CapturedDigits(url, p))
  }

  /** At one start position there is at most one capture, so the extracted id is determined. */
  lemma TweetIdMatchUnique(s: string, p: nat, a: string, b: string)
    requires TweetIdMatch(s, p, a) && TweetIdMatch(s, p, b)
    ensures a == b
  {
    TweetIdMatchCharacterised(s, p, a);
    TweetIdMatchCharacterised(s, p, b);
  }

  // ---------------------------------------------------------------------------
  // extract_username: r'(?:x\.com|twitter\.com)/([^/]+)/status/'
  // ---------------------------------------------------------------------------

  /** `name` is the group a match starting at `p` captures: a non-empty segment without
      `/` between `x.com/` or `twitter.com/` and `/status/`. */
  predicate UsernameMatch(s: string, p: nat, name: string) {
    && |name| > 0
    && '/' !in name
    && (OccursAt(XHost + name + StatusMarker, s, p) || OccursAt(TwitterHost + name + StatusMarker, s, p))
  }

  /** Where the host alternative tried at `p` ends (`x.com/` is tried first). */
  function HostEnd(s: string, p: nat): (q: Option<nat>)
    ensures q.Some? ==> q.value <= |s|
  {
    if OccursAt(XHost, s, p) then Some(p + |XHost|)
    else if OccursAt(TwitterHost, s, p) then Some(p + |TwitterHost|)
    else None
  }

  /** End of the greedy `[^/]+` run that starts at `q`. */
  function SegmentEnd(s: string, q: nat): (e: nat)
    requires q <= |s|
    ensures q <= e <= |s|
    ensures forall k :: q <= k < e ==> s[k] != '/'
    ensures e == |s| || s[e] == '/'
    decreases |s| - q
  {
    if q < |s| && s[q] != '/' then SegmentEnd(s, q + 1) else q
  }

  /** The regex engine succeeds at start position `p`. Backtracking into `[^/]+` cannot
      help: a shorter run is followed by a character other than `/`. */
  predicate UsernameStartsAt(s: string, p: nat) {
    match HostEnd(s, p)
    case None => false
    case Some(q) => q < SegmentEnd(s, q) && OccursAt(StatusMarker, s, SegmentEnd(s, q))
  }

  function CapturedSegment(s: string, p: nat): string
    requires UsernameStartsAt(s, p)
  {
    var q := HostEnd(s, p).value;
    s[q..SegmentEnd(s, q)]
  }

  lemma SegmentRunUnique(s: string, q: nat, e: nat)
    requires q <= e <= |s|
    requires forall k :: q <= k < e ==> s[k] != '/'
    requires e == |s| || s[e] == '/'
    ensures e == SegmentEnd(s, q)
  {
  }

  /** A match with host `host` at `p`, seen through the engine's steps. */
  lemma HostMatchCharacterised(s: string, p: nat, host: string, name: string)
    requires |name| > 0 && '/' !in name
    requires OccursAt(host + name + StatusMarker, s, p)
    requires HostEnd(s, p) == Some(p + |host|)
    ensures UsernameStartsAt(s, p) && name == CapturedSegment(s, p)
  {
    var q := p + |host|;
    OccursAtConcat(host + name, StatusMarker, s, p);
    OccursAtConcat(host, name, s, p);
    assert s[q..q + |name|] == name;
    forall k | q <= k < q + |name| ensures s[k] != '/' {
      assert s[k] == name[k - q];
    }
    assert s[q + |name|] == StatusMarker[0];
    SegmentRunUnique(s, q, q + |name|);
  }

  lemma UsernameMatchCharacterised(s: string, p: nat, name: string)
    ensures UsernameMatch(s, p, name) <==> UsernameStartsAt(s, p) && name == CapturedSegment(s, p)
  {
    if UsernameMatch(s, p, name) {
      if OccursAt(XHost + name + StatusMarker, s, p) {
        OccursAtConcat(XHost + name, StatusMarker, s, p);
        OccursAtConcat(XHost, name, s, p);
        HostMatchCharacterised(s, p, XHost, name);
      } else {
        OccursAtConcat(TwitterHost + name, StatusMarker, s, p);
        OccursAtConcat(TwitterHost, name, s, p);
        assert s[p] == 't';
        assert !OccursAt(XHost, s, p);
        HostMatchCharacterised(s, p, TwitterHost, name);
      }
    }
    if UsernameStartsAt(s, p) && name == CapturedSegment(s, p) {
      var q := HostEnd(s, p).value;
      var e := SegmentEnd(s, q);
      var host := if OccursAt(XHost, s, p) then XHost else TwitterHost;
      assert q == p + |host|;
      assert OccursAt(name, s, q);
      assert name[0] == s[q];
      assert '/' !in name by {
        forall k | 0 <= k < |name| ensures name[k] != '/' {
          assert name[k] == s[q + k];
        }
      }
      OccursAtConcat(host, name, s, p);
      OccursAtConcat(host + name, StatusMarker, s, p);
    }
  }

  lemma UsernameMatchesCharacterised(s: string)
    ensures forall p: nat, name :: UsernameMatch(s, p, name) <==> UsernameStartsAt(s, p) && name == CapturedSegment(s, p)
  {
    forall p: nat, name ensures UsernameMatch(s, p, name) <==> UsernameStartsAt(s, p) && name == CapturedSegment(s, p) {
      UsernameMatchCharacterised(s, p, name);
    }
  }

  /** `re.search` for the username pattern: the first start position from `i` on. */
  function SearchUsername(s: string, i: nat): (p: Option<nat>)
    requires i <= |s|
    ensures p.Some? ==> i <= p.value && UsernameStartsAt(s, p.value)
    ensures forall q: nat :: i <= q && (p.None? || q < p.value) ==> !UsernameStartsAt(s, q)
    decreases |s| - i
  {
    if UsernameStartsAt(s, i) then Some(i)
    else if i == |s| then None
    else SearchUsername(s, i + 1)
  }

  /** `extract_username`: the segment of the leftmost `x.com/<seg>/status/` or `twitter.com/<seg>/status/`. */
  function ExtractUsername(url: string): (r: Result<string, string>)
    ensures r.Err? <==> forall p: nat, name :: !UsernameMatch(url, p, name)
    ensures r.Err? ==> r.error == NoUsername
    ensures r.Ok? ==> exists p: nat :: UsernameMatch(url, p, r.value) && forall q: nat, name :: q < p ==> !UsernameMatch(url, q, name)
  {
    UsernameMatchesCharacterised(url);
    match SearchUsername(url, 0)
    case None => Err(NoUsername)
    case Some(p) =>
      UsernameMatchCharacterised(url, p, CapturedSegment(url, p));
      Ok(CapturedSegment(url, p))
  }

  /** At one start position there is at most one captured username. */
  lemma UsernameMatchUnique(s: string, p: nat, a: string, b: string)
    requires UsernameMatch(s, p, a) && UsernameMatch(s, p, b)
    ensures a == b
  {
    UsernameMatchCharacterised(s, p, a);
    UsernameMatchCharacterised(s, p, b);
  }
}
