/**
 * The cache-aside resolution of the `/tweet`, `/engagement` and `/user` endpoints.
 *
 * The key-value store is a map from key to (record, time-to-live). The two calls into
 * the scraping library are inputs: what `scrape` returned (or `None` if it raised) and
 * what `get_user_information` returned (or `None` if it raised). Each endpoint has a
 * specification function giving its response, the new store and the library calls it
 * made; the methods of `ScweetService` do the same work step by step on the store they
 * own and are proved equal to those functions.
 */
module Service {
  import opened Wrappers
  import opened Strings
  import opened UrlParsing
  import opened Records

  /** The status and detail of the `HTTPException` a handler raises. */
  datatype HttpError = HttpError(status: int, detail: string)

  const NotInitialised: HttpError := HttpError(503, "Scweet service not initialized")
  const TweetFailed: HttpError := HttpError(500, "Failed to scrape tweet data")
  const EngagementFailed: HttpError := HttpError(500, "Failed to get engagement metrics")
  const UserFailed: HttpError := HttpError(500, "Failed to get user information")
  const TweetNotFound: HttpError := HttpError(404, "Tweet not found")
  const UserNotFound: HttpError := HttpError(404, "User not found")

  /** What can be raised inside a handler's `try` block. */
  datatype Raised =
    | ValueError(message: string)   // the URL extractors, a cached record of the wrong shape, or the library
    | HttpException(error: HttpError)
    | LibraryError                  // anything else the scraping library raises

  /** Message of the validation error raised when a cached record does not have the response's shape. */
  const ShapeMismatch: string := "cached record does not match the response model"

  const TweetPrefix: string := "tweet:"
  const EngagementPrefix: string := "engagement:"
  const UserPrefix: string := "user:"

  const TweetTtl: nat := 300
  const EngagementTtl: nat := 60
  const UserTtl: nat := 1800

  const ScrapeLimit: nat := 50
  const DisplayType: string := "Latest"

  /** `f"tweet:{tweet_id}"`: the prefix followed by the id, which can be read back off the key. */
  function TweetKey(tweetId: string): (k: string)
    ensures StartsWith(k, TweetPrefix) && k[|TweetPrefix|..] == tweetId
  {
    TweetPrefix + tweetId
  }

  /** `f"engagement:{tweet_id}"`. */
  function EngagementKey(tweetId: string): (k: string)
    ensures StartsWith(k, EngagementPrefix) && k[|EngagementPrefix|..] == tweetId
  {
    EngagementPrefix + tweetId
  }

  /** `f"user:{request.username}"`. */
  function UserKey(username: string): (k: string)
    ensures StartsWith(k, UserPrefix) && k[|UserPrefix|..] == username
  {
    UserPrefix + username
  }

  /** A cached JSON document, one of the three response shapes. */
  datatype Record =
    | TweetRecord(tweet: TweetResponse)
    | EngagementRecord(engagement: EngagementResponse)
    | UserRecord(user: UserInfoResponse)

  datatype Entry = Entry(record: Record, ttl: nat)

  type Store = map<string, Entry>

  /** A call into the scraping library, with the arguments the service passes. */
  datatype LibraryCall =
    | Scrape(fromAccount: string, limit: nat, displayType: string)
    | UserInformation(handles: seq<string>, login: bool)

  /** What a library call gave back: its result, or the exception it raised. */
  type Scraped = Result<seq<ScrapedTweet>, Raised>
  type Profiles = Result<map<string, Profile>, Raised>

  function ScrapeCall(username: string): LibraryCall { Scrape(username, ScrapeLimit, DisplayType) }
  function UserInformationCall(username: string): LibraryCall { UserInformation([username], false) }

  datatype TweetRequest = TweetRequest(tweetUrl: string, includeEngagement: bool, includeUserInfo: bool)
  datatype EngagementRequest = EngagementRequest(tweetUrl: string)
  datatype UserInfoRequest = UserInfoRequest(username: string, includeFollowers: bool)

  /** The `TweetRequest` built by the engagement endpoint: both flags at their default, true. */
  function DefaultTweetRequest(tweetUrl: string): TweetRequest { TweetRequest(tweetUrl, true, true) }

  /** What one request produced: its response or error, the store afterwards, the library calls made. */
  datatype Outcome<T, E> = Outcome(response: Result<T, E>, store: Store, calls: seq<LibraryCall>)

  // ---------------------------------------------------------------------------
  // Cache helpers
  // ---------------------------------------------------------------------------

  /** `get_cached_data`: with no store client every read is a miss. */
  function Lookup(cacheOnline: bool, store: Store, key: string): (r: Option<Record>)
    ensures r.Some? <==> cacheOnline && key in store
    ensures r.Some? ==> r.value == store[key].record
  {
    if cacheOnline && key in store then Some(store[key].record) else None
  }

  /** `set_cached_data`: with no store client every write is dropped. */
  function Put(cacheOnline: bool, store: Store, key: string, record: Record, ttl: nat): (s: Store)
    ensures cacheOnline ==> key in s && s[key] == Entry(record, ttl)
    ensures forall k :: k != key ==> (k in s <==> k in store) && (k in s ==> s[k] == store[k])
    ensures !cacheOnline ==> s == store
  {
    if cacheOnline then store[key := Entry(record, ttl)] else store
  }

  // ---------------------------------------------------------------------------
  // The first scraped tweet with the requested id (the `for ... break` loop)
  // ---------------------------------------------------------------------------

  /** `i` is the first position of `results` whose `tweetId` is `id`. */
  predicate IsFirstMatch(results: seq<ScrapedTweet>, id: string, i: nat) {
    && i < |results|
    && results[i].tweetId == Some(id)
    && forall j :: 0 <= j < i ==> results[j].tweetId != Some(id)
  }

  function FirstMatchFrom(results: seq<ScrapedTweet>, id: string, k: nat): (i: Option<nat>)
    requires k <= |results|
    ensures i.Some? ==> k <= i.value < |results| && results[i.value].tweetId == Some(id)
    ensures forall j :: k <= j < |results| && (i.None? || j < i.value) ==> results[j].tweetId != Some(id)
    decreases |results| - k
  {
    if k == |results| then None
    else if results[k].tweetId == Some(id) then Some(k)
    else FirstMatchFrom(results, id, k + 1)
  }

  /** The scraped tweet the endpoint selects, if any. */
  function FirstMatch(results: seq<ScrapedTweet>, id: string): (t: Option<ScrapedTweet>)
    ensures t.None? <==> forall j :: 0 <= j < |results| ==> results[j].tweetId != Some(id)
    ensures t.Some? ==> exists i: nat :: IsFirstMatch(results, id, i) && t.value == results[i]
  {
    match FirstMatchFrom(results, id, 0)
    case None => None
    case Some(i) => assert IsFirstMatch(results, id, i); Some(results[i])
  }

  /** The loop of `get_tweet_data` that scans the scraped tweets and stops at the first match. */
  method FindTweet(results: seq<ScrapedTweet>, id: string) returns (tweet: Option<ScrapedTweet>)
    ensures tweet.None? <==> forall j :: 0 <= j < |results| ==> results[j].tweetId != Some(id)
    ensures tweet.Some? ==> exists i: nat :: IsFirstMatch(results, id, i) && tweet.value == results[i]
  {
    tweet := None;
    for k := 0 to |results|
      invariant tweet == None
      invariant forall j :: 0 <= j < k ==> results[j].tweetId != Some(id)
    {
      if results[k].tweetId == Some(id) {
        tweet := Some(results[k]);
        assert IsFirstMatch(results, id, k);
        break;
      }
    }
  }

  /** Only one position can be the first match. */
  lemma FirstMatchUnique(results: seq<ScrapedTweet>, id: string, i: nat, j: nat)
    requires IsFirstMatch(results, id, i) && IsFirstMatch(results, id, j)
    ensures i == j
  {
  }

  // ---------------------------------------------------------------------------
  // Specification functions of the three endpoints
  // ---------------------------------------------------------------------------

  /** The profile the tweet endpoint uses: the handle's entry, or `{}` when the handle is missing. */
  function ProfileOf(found: map<string, Profile>, username: string): (p: Profile)
    ensures username in found ==> p == found[username]
    ensures username !in found ==> p == NoProfile
  {
    if username in found then found[username] else NoProfile
  }

  /** The `try` block of `get_tweet_data`. */
  function TweetResolution(cacheOnline: bool, store: Store, req: TweetRequest,
                           scraped: Scraped, profiles: Profiles,
                           now: string): (o: Outcome<TweetResponse, Raised>)
    ensures o.response.Err? ==> o.store == store
    ensures o.store != store ==>
      && cacheOnline
      && o.response.Ok?
      && o.store == store[TweetKey(o.response.value.tweetId) := Entry(TweetRecord(o.response.value), TweetTtl)]
  {
    match ExtractTweetId(req.tweetUrl)
    case Err(m) => Outcome(Err(ValueError(m)), store, [])
    case Ok(tweetId) =>
      match ExtractUsername(req.tweetUrl)
      case Err(m) => Outcome(Err(ValueError(m)), store, [])
      case Ok(username) =>
        var cacheKey := TweetKey(tweetId);
        match Lookup(cacheOnline, store, cacheKey)
        case Some(TweetRecord(t)) => Outcome(Ok(t), store, [])
        case Some(_) => Outcome(Err(ValueError(ShapeMismatch)), store, [])
        case None =>
          match scraped
          case Err(e) => Outcome(Err(e), store, [ScrapeCall(username)])
          case Ok(results) =>
            match FirstMatch(results, tweetId)
            case None => Outcome(Err(HttpException(TweetNotFound)), store, [ScrapeCall(username)])
            case Some(tweet) =>
              if !req.includeUserInfo then
                var response := TweetResponseOf(tweetId, username, tweet, NoProfile, now);
                Outcome(Ok(response), Put(cacheOnline, store, cacheKey, TweetRecord(response), TweetTtl),
                        [ScrapeCall(username)])
              else
                var calls := [ScrapeCall(username), UserInformationCall(username)];
                match profiles
                case Err(e) => Outcome(Err(e), store, calls)
                case Ok(found) =>
                  var response := TweetResponseOf(tweetId, username, tweet, ProfileOf(found, username), now);
                  Outcome(Ok(response), Put(cacheOnline, store, cacheKey, TweetRecord(response), TweetTtl), calls)
  }

  /** The two `except` clauses of `get_tweet_data`: a `ValueError` is a 400, anything else a 500. */
  function TweetHttpError(e: Raised): (h: HttpError)
    ensures h.status == 400 <==> e.ValueError?
    ensures e.ValueError? ==> h == HttpError(400, e.message)
    ensures h.status != 400 ==> h == TweetFailed
  {
    match e
    case ValueError(m) => HttpError(400, m)
    case _ => TweetFailed
  }

  /** `POST /tweet`. */
  function TweetEndpoint(ready: bool, cacheOnline: bool, store: Store, req: TweetRequest,
                         scraped: Scraped, profiles: Profiles,
                         now: string): (o: Outcome<TweetResponse, HttpError>)
    ensures !ready ==> o == Outcome(Err(NotInitialised), store, [])
    ensures o.response.Err? ==> o.store == store && o.response.error.status in {400, 500, 503}
    ensures ready && ExtractTweetId(req.tweetUrl).Err? ==> o == Outcome(Err(HttpError(400, InvalidTweetUrl)), store, [])
    ensures ready && ExtractTweetId(req.tweetUrl).Ok? && ExtractUsername(req.tweetUrl).Err? ==>
      o == Outcome(Err(HttpError(400, NoUsername)), store, [])
  {
    if !ready then Outcome(Err(NotInitialised), store, [])
    else
      var attempt := TweetResolution(cacheOnline, store, req, scraped, profiles, now);
      match attempt.response
      case Ok(t) => Outcome(Ok(t), attempt.store, attempt.calls)
      case Err(e) => Outcome(Err(TweetHttpError(e)), attempt.store, attempt.calls)
  }

  /** The `try` block of `get_engagement_metrics`. */
  function EngagementResolution(ready: bool, cacheOnline: bool, store: Store, req: EngagementRequest,
                                scraped: Scraped, profiles: Profiles,
                                now: string): (o: Outcome<EngagementResponse, Raised>)
    ensures o.response.Err? ==> o.store == store
  {
    match ExtractTweetId(req.tweetUrl)
    case Err(m) => Outcome(Err(ValueError(m)), store, [])
    case Ok(tweetId) =>
      var cacheKey := EngagementKey(tweetId);
      match Lookup(cacheOnline, store, cacheKey)
      case Some(EngagementRecord(e)) => Outcome(Ok(e), store, [])
      case Some(_) => Outcome(Err(ValueError(ShapeMismatch)), store, [])
      case None =>
        var nested := TweetEndpoint(ready, cacheOnline, store, DefaultTweetRequest(req.tweetUrl), scraped, profiles, now);
        match nested.response
        case Err(h) => Outcome(Err(HttpException(h)), store, nested.calls)
        case Ok(tweet) =>
          var response := EngagementOf(tweet, now);
          Outcome(Ok(response), Put(cacheOnline, nested.store, cacheKey, EngagementRecord(response), EngagementTtl),
                  nested.calls)
  }

  /** `POST /engagement`: its one `except Exception` turns every failure into a 500. */
  function EngagementEndpoint(ready: bool, cacheOnline: bool, store: Store, req: EngagementRequest,
                              scraped: Scraped, profiles: Profiles,
                              now: string): (o: Outcome<EngagementResponse, HttpError>)
    ensures !ready ==> o == Outcome(Err(NotInitialised), store, [])
    ensures ready && o.response.Err? ==> o.response.error == EngagementFailed
    ensures o.response.Err? ==> o.store == store
    ensures ready && ExtractTweetId(req.tweetUrl).Err? ==> o == Outcome(Err(EngagementFailed), store, [])
  {
    if !ready then Outcome(Err(NotInitialised), store, [])
    else
      var attempt := EngagementResolution(ready, cacheOnline, store, req, scraped, profiles, now);
      match attempt.response
      case Ok(e) => Outcome(Ok(e), attempt.store, attempt.calls)
      case Err(_) => Outcome(Err(EngagementFailed), attempt.store, attempt.calls)
  }

  /** The `try` block of `get_user_info`. */
  function UserResolution(cacheOnline: bool, store: Store, req: UserInfoRequest,
                          profiles: Profiles): (o: Outcome<UserInfoResponse, Raised>)
    ensures o.response.Err? ==> o.store == store
    ensures o.store != store ==>
      && cacheOnline
      && o.response.Ok?
      && o.store == store[UserKey(req.username) := Entry(UserRecord(o.response.value), UserTtl)]
  {
    var cacheKey := UserKey(req.username);
    match Lookup(cacheOnline, store, cacheKey)
    case Some(UserRecord(u)) => Outcome(Ok(u), store, [])
    case Some(_) => Outcome(Err(ValueError(ShapeMismatch)), store, [])
    case None =>
      var calls := [UserInformationCall(req.username)];
      match profiles
      case Err(e) => Outcome(Err(e), store, calls)
      case Ok(found) =>
        if req.username !in found then Outcome(Err(HttpException(UserNotFound)), store, calls)
        else
          var response := UserInfoOf(req.username, found[req.username]);
          Outcome(Ok(response), Put(cacheOnline, store, cacheKey, UserRecord(response), UserTtl), calls)
  }

  /** `POST /user`: its one `except Exception` turns every failure into a 500. */
  function UserEndpoint(ready: bool, cacheOnline: bool, store: Store, req: UserInfoRequest,
                        profiles: Profiles): (o: Outcome<UserInfoResponse, HttpError>)
    ensures !ready ==> o == Outcome(Err(NotInitialised), store, [])
    ensures ready && o.response.Err? ==> o.response.error == UserFailed
    ensures o.response.Err? ==> o.store == store
  {
    if !ready then Outcome(Err(NotInitialised), store, [])
    else
      var attempt := UserResolution(cacheOnline, store, req, profiles);
      match attempt.response
      case Ok(u) => Outcome(Ok(u), attempt.store, attempt.calls)
      case Err(_) => Outcome(Err(UserFailed), attempt.store, attempt.calls)
  }

  // ---------------------------------------------------------------------------
  // The service object
  // ---------------------------------------------------------------------------

  /**
   * The running service: whether the scraper was initialised (`scweet_instance` is set),
   * whether a store client exists (`redis_client` is set), the store's contents, and a
   * ghost log of the calls made into the scraping library.
   */
  class ScweetService {
    const ready: bool
    const cacheOnline: bool
    var store: Store
    ghost var calls: seq<LibraryCall>

    constructor (ready: bool, cacheOnline: bool, store: Store)
      ensures this.ready == ready && this.cacheOnline == cacheOnline
      ensures this.store == store && calls == []
    {
      this.ready := ready;
      this.cacheOnline := cacheOnline;
      this.store := store;
      calls := [];
    }

    /** `get_cached_data`. */
    method GetCachedData(key: string) returns (r: Option<Record>)
      ensures r == Lookup(cacheOnline, store, key)
    {
      if cacheOnline && key in store {
        r := Some(store[key].record);
      } else {
        r := None;
      }
    }

    /** `set_cached_data`. */
    method SetCachedData(key: string, record: Record, ttl: nat)
      modifies this`store
      ensures store == Put(cacheOnline, old(store), key, record, ttl)
    {
      if cacheOnline {
        store := store[key := Entry(record, ttl)];
      }
    }

    /** The `try` block of `get_tweet_data`. */
    method ResolveTweet(req: TweetRequest, scraped: Scraped,
                        profiles: Profiles, now: string)
      returns (r: Result<TweetResponse, Raised>)
      modifies this
      ensures var o := TweetResolution(cacheOnline, old(store), req, scraped, profiles, now);
        r == o.response && store == o.store && calls == old(calls) + o.calls
    {
      var idOrError := ExtractTweetId(req.tweetUrl);
      if idOrError.Err? {
        return Err(ValueError(idOrError.error));
      }
      var tweetId := idOrError.value;
      var nameOrError := ExtractUsername(req.tweetUrl);
      if nameOrError.Err? {
        return Err(ValueError(nameOrError.error));
      }
      var username := nameOrError.value;
      var cacheKey := TweetKey(tweetId);
      var cached := GetCachedData(cacheKey);
      if cached.Some? {
        if cached.value.TweetRecord? {
          return Ok(cached.value.tweet);
        }
        return Err(ValueError(ShapeMismatch));
      }
      calls := calls + [ScrapeCall(username)];
      if scraped.Err? {
        return Err(scraped.error);
      }
      var tweet := FindTweet(scraped.value, tweetId);
      ghost var expected := FirstMatch(scraped.value, tweetId);
      if tweet.Some? {
        ghost var i: nat, i': nat :| IsFirstMatch(scraped.value, tweetId, i) && tweet.value == scraped.value[i]
                              && IsFirstMatch(scraped.value, tweetId, i') && expected.value == scraped.value[i'];
        FirstMatchUnique(scraped.value, tweetId, i, i');
      }
      if tweet.None? {
        return Err(HttpException(TweetNotFound));
      }
      var info := NoProfile;
      if req.includeUserInfo {
        calls := calls + [UserInformationCall(username)];
        if profiles.Err? {
          return Err(profiles.error);
        }
        info := ProfileOf(profiles.value, username);
      }
      var response := TweetResponseOf(tweetId, username, tweet.value, info, now);
      SetCachedData(cacheKey, TweetRecord(response), TweetTtl);
      return Ok(response);
    }

    /** `get_tweet_data`. */
    method GetTweetData(req: TweetRequest, scraped: Scraped,
                        profiles: Profiles, now: string)
      returns (r: Result<TweetResponse, HttpError>)
      modifies this
      ensures var o := TweetEndpoint(ready, cacheOnline, old(store), req, scraped, profiles, now);
        r == o.response && store == o.store && calls == old(calls) + o.calls
    {
      if !ready {
        return Err(NotInitialised);
      }
      var attempt := ResolveTweet(req, scraped, profiles, now);
      match attempt
      case Ok(t) => r := Ok(t);
      case Err(e) => r := Err(TweetHttpError(e));
    }

    /** The `try` block of `get_engagement_metrics`. */
    method ResolveEngagement(req: EngagementRequest, scraped: Scraped,
                             profiles: Profiles, now: string)
      returns (r: Result<EngagementResponse, Raised>)
      modifies this
      ensures var o := EngagementResolution(ready, cacheOnline, old(store), req, scraped, profiles, now);
        r == o.response && store == o.store && calls == old(calls) + o.calls
    {
      var idOrError := ExtractTweetId(req.tweetUrl);
      if idOrError.Err? {
        return Err(ValueError(idOrError.error));
      }
      var tweetId := idOrError.value;
      var cacheKey := EngagementKey(tweetId);
      var cached := GetCachedData(cacheKey);
      if cached.Some? {
        if cached.value.EngagementRecord? {
          return Ok(cached.value.engagement);
        }
        return Err(ValueError(ShapeMismatch));
      }
      var tweet := GetTweetData(DefaultTweetRequest(req.tweetUrl), scraped, profiles, now);
      if tweet.Err? {
        return Err(HttpException(tweet.error));
      }
      var response := EngagementOf(tweet.value, now);
      SetCachedData(cacheKey, EngagementRecord(response), EngagementTtl);
      return Ok(response);
    }

    /** `get_engagement_metrics`. */
    method GetEngagementMetrics(req: EngagementRequest, scraped: Scraped,
                                profiles: Profiles, now: string)
      returns (r: Result<EngagementResponse, HttpError>)
      modifies this
      ensures var o := EngagementEndpoint(ready, cacheOnline, old(store), req, scraped, profiles, now);
        r == o.response && store == o.store && calls == old(calls) + o.calls
    {
      if !ready {
        return Err(NotInitialised);
      }
      var attempt := ResolveEngagement(req, scraped, profiles, now);
      match attempt
      case Ok(e) => r := Ok(e);
      case Err(_) => r := Err(EngagementFailed);
    }

    /** The `try` block of `get_user_info`. */
    method ResolveUser(req: UserInfoRequest, profiles: Profiles)
      returns (r: Result<UserInfoResponse, Raised>)
      modifies this
      ensures var o := UserResolution(cacheOnline, old(store), req, profiles);
        r == o.response && store == o.store && calls == old(calls) + o.calls
    {
      var cacheKey := UserKey(req.username);
      var cached := GetCachedData(cacheKey);
      if cached.Some? {
        if cached.value.UserRecord? {
          return Ok(cached.value.user);
        }
        return Err(ValueError(ShapeMismatch));
      }
      calls := calls + [UserInformationCall(req.username)];
      if profiles.Err? {
        return Err(profiles.error);
      }
      if req.username !in profiles.value {
        return Err(HttpException(UserNotFound));
      }
      var response := UserInfoOf(req.username, profiles.value[req.username]);
      SetCachedData(cacheKey, UserRecord(response), UserTtl);
      return Ok(response);
    }

    /** `get_user_info`. */
    method GetUserInfo(req: UserInfoRequest, profiles: Profiles)
      returns (r: Result<UserInfoResponse, HttpError>)
      modifies this
      ensures var o := UserEndpoint(ready, cacheOnline, old(store), req, profiles);
        r == o.response && store == o.store && calls == old(calls) + o.calls
    {
      if !ready {
        return Err(NotInitialised);
      }
      var attempt := ResolveUser(req, profiles);
      match attempt
      case Ok(u) => r := Ok(u);
      case Err(_) => r := Err(UserFailed);
    }
  }
}
