/**
 * Properties of the three endpoints that relate a request to the store, the
 * library results and other requests.
 */
module ServiceProperties {
  import opened Wrappers
  import opened Strings
  import opened UrlParsing
  import opened Records
  import opened Service

  // ---------------------------------------------------------------------------
  // /tweet
  // ---------------------------------------------------------------------------

  /** A cache hit returns the stored record, touches nothing and calls no library function,
      whatever the flags of the request and whatever the library would have returned. */
  lemma TweetCacheHit(cacheOnline: bool, store: Store, req: TweetRequest,
                      scraped: Scraped, profiles: Profiles, now: string,
                      tweetId: string, t: TweetResponse)
    requires ExtractTweetId(req.tweetUrl) == Ok(tweetId) && ExtractUsername(req.tweetUrl).Ok?
    requires cacheOnline && TweetKey(tweetId) in store && store[TweetKey(tweetId)].record == TweetRecord(t)
    ensures TweetEndpoint(true, cacheOnline, store, req, scraped, profiles, now) == Outcome(Ok(t), store, [])
  {
  }

  /** On a miss the response is built from the FIRST scraped tweet carrying the id, with the
      handle's profile when user info was requested, and written under `tweet:<id>` for 300 s. */
  lemma TweetMissUsesFirstMatch(cacheOnline: bool, store: Store, req: TweetRequest,
                                results: seq<ScrapedTweet>, profiles: Profiles, now: string,
                                tweetId: string, username: string, i: nat)
    requires ExtractTweetId(req.tweetUrl) == Ok(tweetId) && ExtractUsername(req.tweetUrl) == Ok(username)
    requires Lookup(cacheOnline, store, TweetKey(tweetId)).None?
    requires IsFirstMatch(results, tweetId, i)
    ensures var o := TweetEndpoint(true, cacheOnline, store, req, Ok(results), profiles, now);
      && (o.response.Ok? <==> !req.includeUserInfo || profiles.Ok?)
      && o.calls == [ScrapeCall(username)] + (if req.includeUserInfo then [UserInformationCall(username)] else [])
      && (o.response.Ok? ==>
            var info := if req.includeUserInfo then ProfileOf(profiles.value, username) else NoProfile;
            && o.response.value == TweetResponseOf(tweetId, username, results[i], info, now)
            && o.store == Put(cacheOnline, store, TweetKey(tweetId), TweetRecord(o.response.value), TweetTtl))
      && (o.response.Err? ==> o.response.error == TweetHttpError(profiles.error) && o.store == store)
  {
    var t := FirstMatch(results, tweetId);
    var i': nat :| IsFirstMatch(results, tweetId, i') && t.value == results[i'];
    FirstMatchUnique(results, tweetId, i, i');
  }

  /** When the scrape raises, `/tweet` reports what its two handlers make of the exception: a
      `ValueError` from the library is a 400 carrying its message, anything else the 500. */
  lemma TweetScrapeRaises(cacheOnline: bool, store: Store, req: TweetRequest, e: Raised,
                          profiles: Profiles, now: string, tweetId: string, username: string)
    requires ExtractTweetId(req.tweetUrl) == Ok(tweetId) && ExtractUsername(req.tweetUrl) == Ok(username)
    requires Lookup(cacheOnline, store, TweetKey(tweetId)).None?
    ensures var o := TweetEndpoint(true, cacheOnline, store, req, Err(e), profiles, now);
      && o == Outcome(Err(TweetHttpError(e)), store, [ScrapeCall(username)])
      && (e.ValueError? ==> o.response.error == HttpError(400, e.message))
      && (!e.ValueError? ==> o.response.error == TweetFailed)
  {
  }

  /** When no scraped tweet carries the id, the 404 raised inside the handler is caught by its
      broad handler and reported as a 500; nothing is cached. */
  lemma TweetMissWithoutMatch(cacheOnline: bool, store: Store, req: TweetRequest,
                              results: seq<ScrapedTweet>, profiles: Profiles, now: string,
                              tweetId: string, username: string)
    requires ExtractTweetId(req.tweetUrl) == Ok(tweetId) && ExtractUsername(req.tweetUrl) == Ok(username)
    requires Lookup(cacheOnline, store, TweetKey(tweetId)).None?
    requires forall j :: 0 <= j < |results| ==> results[j].tweetId != Some(tweetId)
    ensures TweetResolution(cacheOnline, store, req, Ok(results), profiles, now).response
      == Err(HttpException(TweetNotFound))
    ensures TweetEndpoint(true, cacheOnline, store, req, Ok(results), profiles, now)
      == Outcome(Err(TweetFailed), store, [ScrapeCall(username)])
  {
  }

  /** Without a profile (not requested, or the handle missing from the lookup) the author
      takes its defaults; the community flag always agrees with the content. */
  lemma TweetMissDefaultAuthor(cacheOnline: bool, store: Store, req: TweetRequest,
                               results: seq<ScrapedTweet>, profiles: Profiles, now: string,
                               tweetId: string, username: string)
    requires ExtractTweetId(req.tweetUrl) == Ok(tweetId) && ExtractUsername(req.tweetUrl) == Ok(username)
    requires Lookup(cacheOnline, store, TweetKey(tweetId)).None?
    requires !req.includeUserInfo || (profiles.Ok? && username !in profiles.value)
    ensures var o := TweetEndpoint(true, cacheOnline, store, req, Ok(results), profiles, now);
      o.response.Ok? ==>
        && o.response.value.author == Author(username, username, false, 0, 0)
        && o.response.value.isFromLayerEdgeCommunity == Community.CheckLayerEdgeCommunity(o.response.value.content)
  {
  }

  /** After a successful request the store holds its response under `tweet:<id>`. */
  lemma TweetSuccessIsCached(ready: bool, store: Store, req: TweetRequest,
                             scraped: Scraped, profiles: Profiles, now: string,
                             tweetId: string)
    requires ExtractTweetId(req.tweetUrl) == Ok(tweetId)
    requires TweetEndpoint(ready, true, store, req, scraped, profiles, now).response.Ok?
    ensures var o := TweetEndpoint(ready, true, store, req, scraped, profiles, now);
      TweetKey(tweetId) in o.store && o.store[TweetKey(tweetId)].record == TweetRecord(o.response.value)
  {
  }

  /** Cache-aside: repeating a successful request for the same URL, with any flags and any
      library results, returns the same response from the store and calls no library function. */
  lemma TweetRepeatIsServedFromCache(store: Store, req: TweetRequest, again: TweetRequest,
                                     scraped: Scraped, profiles: Profiles, now: string,
                                     scraped': Scraped, profiles': Profiles, now': string)
    requires again.tweetUrl == req.tweetUrl
    requires TweetEndpoint(true, true, store, req, scraped, profiles, now).response.Ok?
    ensures var first := TweetEndpoint(true, true, store, req, scraped, profiles, now);
      TweetEndpoint(true, true, first.store, again, scraped', profiles', now') == Outcome(first.response, first.store, [])
  {
    var first := TweetEndpoint(true, true, store, req, scraped, profiles, now);
    var tweetId := ExtractTweetId(req.tweetUrl).value;
    TweetSuccessIsCached(true, store, req, scraped, profiles, now, tweetId);
    TweetCacheHit(true, first.store, again, scraped', profiles', now', tweetId, first.response.value);
  }

  // ---------------------------------------------------------------------------
  // /engagement
  // ---------------------------------------------------------------------------

  lemma KeysDiffer(tweetId: string, other: string)
    ensures EngagementKey(tweetId) != TweetKey(other)
    ensures UserKey(tweetId) != TweetKey(other) && UserKey(tweetId) != EngagementKey(other)
  {
    assert EngagementKey(tweetId)[0] == 'e' && TweetKey(other)[0] == 't';
    assert UserKey(tweetId)[0] == 'u' && EngagementKey(other)[0] == 'e';
  }

  /** A cache hit returns the stored record and calls no library function. */
  lemma EngagementCacheHit(cacheOnline: bool, store: Store, req: EngagementRequest,
                           scraped: Scraped, profiles: Profiles, now: string,
                           tweetId: string, e: EngagementResponse)
    requires ExtractTweetId(req.tweetUrl) == Ok(tweetId)
    requires cacheOnline && EngagementKey(tweetId) in store && store[EngagementKey(tweetId)].record == EngagementRecord(e)
    ensures EngagementEndpoint(true, cacheOnline, store, req, scraped, profiles, now) == Outcome(Ok(e), store, [])
  {
  }

  /** On a miss the counts are those of the `/tweet` result for the same URL, and on success both
      the `tweet:` entry and the `engagement:` entry (60 s) are in the store afterwards. */
  lemma EngagementMissUsesTweet(cacheOnline: bool, store: Store, req: EngagementRequest,
                                scraped: Scraped, profiles: Profiles, now: string,
                                tweetId: string)
    requires ExtractTweetId(req.tweetUrl) == Ok(tweetId)
    requires Lookup(cacheOnline, store, EngagementKey(tweetId)).None?
    ensures var o := EngagementEndpoint(true, cacheOnline, store, req, scraped, profiles, now);
      var nested := TweetEndpoint(true, cacheOnline, store, DefaultTweetRequest(req.tweetUrl), scraped, profiles, now);
      && o.calls == nested.calls
      && (o.response.Ok? <==> nested.response.Ok?)
      && (o.response.Ok? ==>
            && o.response.value == EngagementOf(nested.response.value, now)
            && o.store == Put(cacheOnline, nested.store, EngagementKey(tweetId), EngagementRecord(o.response.value), EngagementTtl)
            && (cacheOnline ==>
                  && TweetKey(tweetId) in o.store
                  && o.store[TweetKey(tweetId)].record == TweetRecord(nested.response.value)
                  && o.store[EngagementKey(tweetId)] == Entry(EngagementRecord(o.response.value), EngagementTtl)))
  {
    var nested := TweetEndpoint(true, cacheOnline, store, DefaultTweetRequest(req.tweetUrl), scraped, profiles, now);
    if nested.response.Ok? && cacheOnline {
      TweetSuccessIsCached(true, store, DefaultTweetRequest(req.tweetUrl), scraped, profiles, now, tweetId);
      KeysDiffer(tweetId, tweetId);
    }
  }

  /** The engagement counts agree with the scraped tweet's counts (0 for a missing count)
      when the response comes from a fresh scrape. */
  lemma EngagementCountsFromScrape(cacheOnline: bool, store: Store, req: EngagementRequest,
                                   results: seq<ScrapedTweet>, profiles: Profiles, now: string,
                                   tweetId: string, i: nat)
    requires ExtractTweetId(req.tweetUrl) == Ok(tweetId) && ExtractUsername(req.tweetUrl).Ok?
    requires Lookup(cacheOnline, store, EngagementKey(tweetId)).None?
    requires Lookup(cacheOnline, store, TweetKey(tweetId)).None?
    requires IsFirstMatch(results, tweetId, i)
    ensures var o := EngagementEndpoint(true, cacheOnline, store, req, Ok(results), profiles, now);
      o.response.Ok? ==>
        && o.response.value.likes == results[i].likes.GetOr(0)
        && o.response.value.retweets == results[i].retweets.GetOr(0)
        && o.response.value.replies == results[i].replies.GetOr(0)
  {
    var nestedReq := DefaultTweetRequest(req.tweetUrl);
    EngagementMissUsesTweet(cacheOnline, store, req, Ok(results), profiles, now, tweetId);
    TweetMissUsesFirstMatch(cacheOnline, store, nestedReq, results, profiles, now, tweetId,
                            ExtractUsername(req.tweetUrl).value, i);
  }

  // ---------------------------------------------------------------------------
  // /user
  // ---------------------------------------------------------------------------

  /** A cache hit returns the stored record and calls no library function. */
  lemma UserCacheHit(cacheOnline: bool, store: Store, req: UserInfoRequest,
                     profiles: Profiles, u: UserInfoResponse)
    requires cacheOnline && UserKey(req.username) in store && store[UserKey(req.username)].record == UserRecord(u)
    ensures UserEndpoint(true, cacheOnline, store, req, profiles) == Outcome(Ok(u), store, [])
  {
  }

  /** On a miss the handle's profile is required: without it the request fails with a 500 and
      nothing is cached; with it the response is written under `user:<handle>` for 1800 s. */
  lemma UserMiss(cacheOnline: bool, store: Store, req: UserInfoRequest, profiles: Profiles)
    requires Lookup(cacheOnline, store, UserKey(req.username)).None?
    ensures var o := UserEndpoint(true, cacheOnline, store, req, profiles);
      && o.calls == [UserInformationCall(req.username)]
      && (o.response.Ok? <==> profiles.Ok? && req.username in profiles.value)
      && (o.response.Err? ==> o.response.error == UserFailed && o.store == store)
      && (o.response.Ok? ==>
            && o.response.value == UserInfoOf(req.username, profiles.value[req.username])
            && o.store == Put(cacheOnline, store, UserKey(req.username), UserRecord(o.response.value), UserTtl))
  {
  }

  /** Cache-aside: repeating a successful request returns the same response from the store. */
  lemma UserRepeatIsServedFromCache(store: Store, req: UserInfoRequest, profiles: Profiles,
                                    again: UserInfoRequest, profiles': Profiles)
    requires again.username == req.username
    requires UserEndpoint(true, true, store, req, profiles).response.Ok?
    ensures var first := UserEndpoint(true, true, store, req, profiles);
      UserEndpoint(true, true, first.store, again, profiles') == Outcome(first.response, first.store, [])
  {
  }

  // ---------------------------------------------------------------------------
  // The store invariant: every entry under a known prefix is the record that prefix names
  // ---------------------------------------------------------------------------

  ghost predicate EntryFitsKey(key: string, e: Entry) {
    && (StartsWith(key, TweetPrefix) ==>
          e.record.TweetRecord? && e.ttl == TweetTtl && key == TweetKey(e.record.tweet.tweetId))
    && (StartsWith(key, EngagementPrefix) ==> e.record.EngagementRecord? && e.ttl == EngagementTtl)
    && (StartsWith(key, UserPrefix) ==>
          e.record.UserRecord? && e.ttl == UserTtl && key == UserKey(e.record.user.username))
  }

  ghost predicate WellKeyed(store: Store) {
    forall key :: key in store ==> EntryFitsKey(key, store[key])
  }

  lemma PrefixesOfKeys(id: string)
    ensures StartsWith(TweetKey(id), TweetPrefix)
    ensures !StartsWith(TweetKey(id), EngagementPrefix) && !StartsWith(TweetKey(id), UserPrefix)
    ensures StartsWith(EngagementKey(id), EngagementPrefix)
    ensures !StartsWith(EngagementKey(id), TweetPrefix) && !StartsWith(EngagementKey(id), UserPrefix)
    ensures StartsWith(UserKey(id), UserPrefix)
    ensures !StartsWith(UserKey(id), TweetPrefix) && !StartsWith(UserKey(id), EngagementPrefix)
  {
    assert TweetKey(id)[..|TweetPrefix|] == TweetPrefix;
    assert EngagementKey(id)[..|EngagementPrefix|] == EngagementPrefix;
    assert UserKey(id)[..|UserPrefix|] == UserPrefix;
    assert TweetKey(id)[0] == 't' && EngagementKey(id)[0] == 'e' && UserKey(id)[0] == 'u';
  }

  lemma {:induction false} TweetEndpointKeepsWellKeyed(ready: bool, cacheOnline: bool, store: Store, req: TweetRequest,
                                     scraped: Scraped, profiles: Profiles, now: string)
    requires WellKeyed(store)
    ensures WellKeyed(TweetEndpoint(ready, cacheOnline, store, req, scraped, profiles, now).store)
  {
    var o := TweetEndpoint(ready, cacheOnline, store, req, scraped, profiles, now);
    if o.store != store {
      var attempt := TweetResolution(cacheOnline, store, req, scraped, profiles, now);
      assert attempt.store == o.store;
      PrefixesOfKeys(attempt.response.value.tweetId);
    }
  }

  lemma {:induction false} EngagementEndpointKeepsWellKeyed(ready: bool, cacheOnline: bool, store: Store, req: EngagementRequest,
                                          scraped: Scraped, profiles: Profiles, now: string)
    requires WellKeyed(store)
    ensures WellKeyed(EngagementEndpoint(ready, cacheOnline, store, req, scraped, profiles, now).store)
  {
    var o := EngagementEndpoint(ready, cacheOnline, store, req, scraped, profiles, now);
    if ready && o.response.Ok? && ExtractTweetId(req.tweetUrl).Ok? {
      var tweetId := ExtractTweetId(req.tweetUrl).value;
      if Lookup(cacheOnline, store, EngagementKey(tweetId)).None? {
        var nested := TweetEndpoint(true, cacheOnline, store, DefaultTweetRequest(req.tweetUrl), scraped, profiles, now);
        TweetEndpointKeepsWellKeyed(true, cacheOnline, store, DefaultTweetRequest(req.tweetUrl), scraped, profiles, now);
        PrefixesOfKeys(tweetId);
        EngagementMissUsesTweet(cacheOnline, store, req, scraped, profiles, now, tweetId);
      }
    }
  }

  lemma {:induction false} UserEndpointKeepsWellKeyed(ready: bool, cacheOnline: bool, store: Store, req: UserInfoRequest,
                                    profiles: Profiles)
    requires WellKeyed(store)
    ensures WellKeyed(UserEndpoint(ready, cacheOnline, store, req, profiles).store)
  {
    PrefixesOfKeys(req.username);
  }

  /** In a well-keyed store a `/tweet` cache hit is always the record of the requested tweet:
      the validation-error path is never taken. */
  lemma WellKeyedTweetHit(cacheOnline: bool, store: Store, req: TweetRequest,
                          scraped: Scraped, profiles: Profiles, now: string,
                          tweetId: string)
    requires WellKeyed(store)
    requires ExtractTweetId(req.tweetUrl) == Ok(tweetId) && ExtractUsername(req.tweetUrl).Ok?
    requires cacheOnline && TweetKey(tweetId) in store
    ensures var o := TweetEndpoint(true, cacheOnline, store, req, scraped, profiles, now);
      o.response.Ok? && o.response.value.tweetId == tweetId && o.calls == []
  {
    PrefixesOfKeys(tweetId);
    assert EntryFitsKey(TweetKey(tweetId), store[TweetKey(tweetId)]);
  }
}
