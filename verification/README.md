# Scweet service for LayerEdge — a Dafny model of its request handling

The service is a small HTTP front end to a tweet-scraping library with a Redis cache in
front of it (`src/lib/scweet-service.py`). This project models the parts of it that are
logic rather than plumbing:

- the two URL extractors, `extract_tweet_id` (regex `/status/(\d+)`) and
  `extract_username` (regex `(?:x\.com|twitter\.com)/([^/]+)/status/`), as
  left-to-right searches proved equal to declarative statements of "the capture of the
  leftmost match" (module `UrlParsing`, with substring helpers in `Strings`);
- the keyword classifier `check_layeredge_community`, proved to mean "the text contains
  `@layeredge` or `$edgen` in any letter case" (module `Community`);
- the response shapes and how library data is turned into them, with the defaults the
  source uses for missing fields (module `Records`);
- the cache-aside resolution of `POST /tweet`, `POST /engagement` and `POST /user`
  (module `Service`). The store is a `map` from key to (record, TTL) owned by the class
  `ScweetService`; the two library calls (`scrape`, `get_user_information`) are inputs
  (each either a result or the exception the library raised). Each endpoint is a method that works step by step
  (cache read, the `for ... break` scan of the scraped tweets, cache write) and is proved
  equal to a specification function that gives the response, the new store and the
  library calls made. Module `ServiceProperties` proves what those functions promise:
  hits short-circuit, the first matching tweet is chosen, each endpoint writes one fixed
  key prefix with one fixed TTL, failures leave the store unchanged (for library values of
the expected types; see "Left out" for the write-then-fail case), a repeated request
  is served from the store, and the store stays consistent with its key prefixes.

Status codes follow the code as written. The `HTTPException(404)` raised inside the
`try` blocks of `/tweet` and `/user` is caught by their `except Exception` handler and
reported as 500. `/engagement` reports every failure as 500, an invalid URL included,
because it has no `ValueError` clause. A cached document of the wrong shape fails
pydantic validation, and pydantic's `ValidationError` is a `ValueError`: `/tweet` reports
it as 400 and the other two endpoints as 500. The same holds for an exception raised by
the library itself: one that is a `ValueError` (a `json.JSONDecodeError`, say) is a 400
with its message in `/tweet`, and any other is the 500; the model carries the raised kind
through.

A miss calls the one library; the file defines no other tweet or user endpoints.

## Model

| member | source | states |
|---|---|---|
| `Strings.OccursAtConcat` | src/lib/scweet-service.py:114 | an occurrence of `a + b` is an occurrence of `a` followed directly by one of `b` |
| `Strings.FindFrom` | src/lib/scweet-service.py:321 | the scan from index `i` succeeds iff the pattern occurs at some index `>= i` |
| `Strings.Contains` | src/lib/scweet-service.py:321 | Python's `pat in s` holds iff `pat` occurs at some index of `s` |
| `UrlParsing.DigitRunEnd` | src/lib/scweet-service.py:114 | the greedy `\d+` run from `q` is all digits and is followed by a non-digit or the end |
| `UrlParsing.DigitRunUnique` | src/lib/scweet-service.py:114 | a maximal digit run is determined by its start |
| `UrlParsing.TweetIdMatchCharacterised` | src/lib/scweet-service.py:114 | a capture of `/status/(\d+)` at `p` exists iff the engine succeeds at `p`, and it is the greedy digit run |
| `UrlParsing.TweetIdMatchesCharacterised` | src/lib/scweet-service.py:114 | the same for every start position and every candidate id |
| `UrlParsing.SearchTweetId` | src/lib/scweet-service.py:114 | `re.search` returns the first start position from `i` at which `/status/` is followed by a digit |
| `UrlParsing.ExtractTweetId` | src/lib/scweet-service.py:111-117 | fails with "Invalid tweet URL format" exactly when no `/status/` is followed by a digit; otherwise returns the non-empty, maximal digit run after the leftmost such `/status/` |
| `UrlParsing.TweetIdMatchUnique` | src/lib/scweet-service.py:114-116 | at one start position there is only one capture, so the extracted id is determined |
| `UrlParsing.HostEnd` | src/lib/scweet-service.py:122 | the host alternative, when it matches, ends inside the URL |
| `UrlParsing.SegmentEnd` | src/lib/scweet-service.py:122 | the greedy `[^/]+` run from `q` has no `/` and is followed by `/` or the end |
| `UrlParsing.SegmentRunUnique` | src/lib/scweet-service.py:122 | a maximal slash-free run is determined by its start |
| `UrlParsing.HostMatchCharacterised` | src/lib/scweet-service.py:122 | an occurrence of host + segment + `/status/` at `p` is one the engine finds, and it captures that segment |
| `UrlParsing.UsernameMatchCharacterised` | src/lib/scweet-service.py:122 | a username capture at `p` exists iff the engine succeeds at `p`, and it is the segment after the host |
| `UrlParsing.UsernameMatchesCharacterised` | src/lib/scweet-service.py:122 | the same for every start position and every candidate segment |
| `UrlParsing.SearchUsername` | src/lib/scweet-service.py:122 | `re.search` returns the first start position from `i` at which the username pattern matches |
| `UrlParsing.ExtractUsername` | src/lib/scweet-service.py:119-125 | fails with "Cannot extract username from URL" exactly when no `x.com/<s>/status/` or `twitter.com/<s>/status/` with `s` non-empty and slash-free occurs; otherwise returns the `s` of the leftmost one |
| `UrlParsing.UsernameMatchUnique` | src/lib/scweet-service.py:122-124 | at one start position there is only one captured username |
| `Community.Lower` | src/lib/scweet-service.py:320 | lower-casing keeps the length of the text |
| `Community.OccursInLowerIff` | src/lib/scweet-service.py:320-321 | a pattern occurs in the lower-cased text iff it occurs in the text ignoring letter case |
| `Community.CheckLayerEdgeCommunity` | src/lib/scweet-service.py:318-321 | true iff the text contains `@layeredge` or `$edgen`, ignoring letter case |
| `Community.CaseDoesNotMatter` | src/lib/scweet-service.py:318-321 | two texts that differ only in letter case are classified alike |
| `Community.CapitalisedMentionCounts` | src/lib/scweet-service.py:320-321 | "gm @LayerEdge" is classified as community content |
| `Records.TweetResponseOf` | src/lib/scweet-service.py:207-225 | a built tweet response carries the requested id and handle, source "scweet", and a community flag that agrees with its content |
| `Records.AuthorDefaults` | src/lib/scweet-service.py:210-216 | with no profile the author has display name = handle, not verified, 0 followers, 0 following |
| `Records.TweetResponseDefaults` | src/lib/scweet-service.py:207-225 | a scraped tweet with no fields gives content "", zero counts, `created_at` = the current time, flag false |
| `Records.TweetResponseOfFields` | src/lib/scweet-service.py:207-222 | for any mix of present and missing fields: the author is `AuthorOf` the profile; content, each count and `created_at` are the scraped field when present and "", 0 or the current time when missing |
| `Records.AuthorOf` | src/lib/scweet-service.py:210-216 | for any profile: username is the handle; display name, verified, followers and following are the profile's field when present, else handle, false, 0, 0 |
| `Records.EngagementOf` | src/lib/scweet-service.py:256-262 | likes, retweets and replies are the tweet response's counts; timestamp is the current time; source "scweet" |
| `Records.UserInfoOf` | src/lib/scweet-service.py:297-307 | for any profile: display name, bio, counts and verified are the profile's field when present, else handle, "", 0, false; location, website and join date are the profile's, absent or not |
| `Service.ProfileOf` | src/lib/scweet-service.py:197-204 | the profile stored under the handle when the lookup returned it, the empty profile otherwise |
| `Service.TweetKey` | src/lib/scweet-service.py:167 | the key is "tweet:" followed by the tweet id, which reads back off the key |
| `Service.EngagementKey` | src/lib/scweet-service.py:248 | the key is "engagement:" followed by the tweet id |
| `Service.UserKey` | src/lib/scweet-service.py:281 | the key is "user:" followed by the handle |
| `Records.UserInfoDefaults` | src/lib/scweet-service.py:297-307 | with no profile fields: display name = handle, bio "", counts 0, not verified, location/website/join date absent |
| `Service.Lookup` | src/lib/scweet-service.py:127-136 | a read hits iff a store client exists and the key is stored, and returns the stored record |
| `Service.Put` | src/lib/scweet-service.py:138-144 | a write stores (record, TTL) under its key when a store client exists and changes no other key |
| `Service.FirstMatchFrom` | src/lib/scweet-service.py:186-191 | returns the first position from `k` whose `tweetId` is the id; none before it matches |
| `Service.FirstMatch` | src/lib/scweet-service.py:186-194 | no tweet is selected iff none carries the id; otherwise the first one that does |
| `Service.FindTweet` | src/lib/scweet-service.py:186-191 | the `for ... break` loop finds nothing iff no tweet carries the id, and otherwise the first one that does |
| `Service.FirstMatchUnique` | src/lib/scweet-service.py:186-191 | only one position is the first match |
| `Service.TweetResolution` | src/lib/scweet-service.py:162-230 | a failure leaves the store unchanged; the only change ever made is the returned record under `tweet:<id>` with TTL 300 |
| `Service.TweetHttpError` | src/lib/scweet-service.py:232-236 | a `ValueError` becomes a 400 with its message, anything else (the inner 404 included) a 500 "Failed to scrape tweet data" |
| `Service.TweetEndpoint` | src/lib/scweet-service.py:156-236 | not initialised: 503 with nothing touched; bad tweet id or username: 400 with nothing touched; every error is 400, 500 or 503 and leaves the store unchanged |
| `Service.EngagementResolution` | src/lib/scweet-service.py:244-267 | a failure leaves the store unchanged |
| `Service.EngagementEndpoint` | src/lib/scweet-service.py:238-271 | not initialised: 503 with nothing touched; otherwise every error, a bad URL included, is the 500 "Failed to get engagement metrics" and leaves the store unchanged |
| `Service.UserResolution` | src/lib/scweet-service.py:279-312 | a failure leaves the store unchanged; the only change is the returned record under `user:<handle>` with TTL 1800 |
| `Service.UserEndpoint` | src/lib/scweet-service.py:273-316 | not initialised: 503 with nothing touched; otherwise every error is the 500 "Failed to get user information" and leaves the store unchanged |
| `Service.ScweetService.constructor` | src/lib/scweet-service.py:62-64 | a service starts from the given readiness, store client and store, with no library calls made |
| `Service.ScweetService.GetCachedData` | src/lib/scweet-service.py:127-136 | returns what `Lookup` gives: the stored record iff a store client exists and the key is stored |
| `Service.ScweetService.SetCachedData` | src/lib/scweet-service.py:138-144 | the new store is the old one with (record, TTL) under the key, or unchanged without a store client |
| `Service.ScweetService.ResolveTweet` | src/lib/scweet-service.py:162-230 | response, new store and library calls are those of `TweetResolution` |
| `Service.ScweetService.GetTweetData` | src/lib/scweet-service.py:156-236 | response, new store and library calls are those of `TweetEndpoint` |
| `Service.ScweetService.ResolveEngagement` | src/lib/scweet-service.py:244-267 | response, new store and library calls are those of `EngagementResolution` |
| `Service.ScweetService.GetEngagementMetrics` | src/lib/scweet-service.py:238-271 | response, new store and library calls are those of `EngagementEndpoint` |
| `Service.ScweetService.ResolveUser` | src/lib/scweet-service.py:279-312 | response, new store and library calls are those of `UserResolution` |
| `Service.ScweetService.GetUserInfo` | src/lib/scweet-service.py:273-316 | response, new store and library calls are those of `UserEndpoint` |
| `ServiceProperties.TweetCacheHit` | src/lib/scweet-service.py:166-171 | on a hit under `tweet:<id>` the stored record is returned, the store is unchanged and no library call is made, whatever `include_user_info` is |
| `ServiceProperties.TweetMissUsesFirstMatch` | src/lib/scweet-service.py:173-230 | on a miss the response is built from the first scraped tweet with the id, and from the handle's profile when requested; it succeeds iff the profile lookup, if made, did not raise; success writes exactly that response under `tweet:<id>` with TTL 300; a raising lookup is reported as `TweetHttpError` of what it raised (400 for a `ValueError`, else 500) |
| `ServiceProperties.TweetScrapeRaises` | src/lib/scweet-service.py:178-236 | on a miss, a raising `scrape` is reported with nothing cached and one call made: a library `ValueError` as 400 with its message, anything else as the 500 |
| `ServiceProperties.TweetMissWithoutMatch` | src/lib/scweet-service.py:186-236 | when no scraped tweet has the id, a 404 is raised inside and reported as 500; nothing is cached |
| `ServiceProperties.TweetMissDefaultAuthor` | src/lib/scweet-service.py:196-224 | with user info not requested or the handle missing, the author takes its defaults; the community flag is the classifier applied to the content |
| `ServiceProperties.TweetSuccessIsCached` | src/lib/scweet-service.py:166-228 | after a successful `/tweet` the store holds its response under `tweet:<id>` |
| `ServiceProperties.TweetRepeatIsServedFromCache` | src/lib/scweet-service.py:166-230 | repeating a successful `/tweet` for the same URL returns the same response from the store with no library call |
| `ServiceProperties.KeysDiffer` | src/lib/scweet-service.py:248 | `engagement:`, `tweet:` and `user:` keys never coincide |
| `ServiceProperties.EngagementCacheHit` | src/lib/scweet-service.py:247-251 | on a hit under `engagement:<id>` the stored record is returned with nothing changed |
| `ServiceProperties.EngagementMissUsesTweet` | src/lib/scweet-service.py:253-265 | on a miss the counts are those of the nested `/tweet` result; success writes `engagement:<id>` with TTL 60 and leaves the `tweet:<id>` entry holding that tweet |
| `ServiceProperties.EngagementCountsFromScrape` | src/lib/scweet-service.py:217-221 | when both entries miss, likes, retweets and replies are the first matching scraped tweet's counts (0 when missing) |
| `ServiceProperties.UserCacheHit` | src/lib/scweet-service.py:280-284 | on a hit under `user:<handle>` the stored record is returned with nothing changed |
| `ServiceProperties.UserMiss` | src/lib/scweet-service.py:286-310 | on a miss the request succeeds iff the lookup returned the handle; failure is a 500 with nothing cached; success writes the built response under `user:<handle>` with TTL 1800 |
| `ServiceProperties.UserRepeatIsServedFromCache` | src/lib/scweet-service.py:280-310 | repeating a successful `/user` for the same handle returns the same response from the store |
| `ServiceProperties.PrefixesOfKeys` | src/lib/scweet-service.py:167 | each key has its own prefix and none of the other two |
| `ServiceProperties.TweetEndpointKeepsWellKeyed` | src/lib/scweet-service.py:167-228 | `/tweet` keeps every prefixed entry the record kind and TTL its prefix names |
| `ServiceProperties.EngagementEndpointKeepsWellKeyed` | src/lib/scweet-service.py:248-265 | `/engagement` keeps the store well keyed |
| `ServiceProperties.UserEndpointKeepsWellKeyed` | src/lib/scweet-service.py:281-310 | `/user` keeps the store well keyed |
| `ServiceProperties.WellKeyedTweetHit` | src/lib/scweet-service.py:166-171 | in a well-keyed store a `/tweet` hit is always the requested tweet's record, never a validation error |

## Left out

- The FastAPI application, its lifespan hook, the `/health` endpoint and the uvicorn start-up (lines 66-109, 146-154, 323-331): framework plumbing. Whether the scraper and the store client were created is given to the service's constructor as two booleans.
- Redis itself, JSON encoding and the logging of swallowed cache errors (lines 127-144): the store is a map. A missing client makes every read a miss and every write a no-op. A transient read or write error on a live client behaves the same way in the source; the model does not pick out such calls.
- A cached document that the source would treat as a miss (an empty dictionary) or that is not one of the three response shapes: every stored record is a hit, and a record of another of the three shapes takes the validation-error path.
- Service.ShapeMismatch: the text of pydantic's validation error is not modelled; a fixed message stands for it.
- TTL expiry over time: there is no clock; the model records the TTL written.
- The scraping library's own behaviour and the date window passed to `scrape` (built from `datetime.now()`): results are inputs, and the recorded call keeps the handle, the limit 50 and the display type "Latest" only.
- The `datetime.utcnow()` timestamps (lines 222, 260): one input string `now`. In `/engagement` the same string is both the nested tweet's default `created_at` and the engagement timestamp.
- Records.TweetResponseOf: the `int()` coercion of the counts (lines 218-220) is not modelled; counts are integers already. A non-numeric string count would raise `ValueError` in the source, which `/tweet` reports as 400; a `None` count would raise `TypeError`, reported as 500. Either happens before the cache write, so the store is unchanged.
- Library dictionaries whose keys are present with a `None` or wrongly typed value: `Option` only models a key being present or absent, so the model's "a failure leaves the store unchanged" holds only for values of the expected types. In the source, `/tweet` with a `None` `Text` fails in `check_layeredge_community` (`None.lower()`, line 320) while the response is built, before the cache write, and answers 500; with a `None` `Timestamp` it writes the entry (line 228) and then fails validation of `created_at` (line 230), answering 400, and every repeat hits that entry and fails the same way until its TTL expires; `None` profile fields pass through, because `author` is an untyped dictionary (line 31). `/user` with a `None` `name`, `description`, count or `verified` writes the entry (line 310) and then fails validation (line 312), answering 500, again until the TTL expires.
- UrlParsing.ExtractTweetId: `\d` is restricted to ASCII digits; Python's `\d` on `str` also matches other Unicode decimal digits.
- Community.CheckLayerEdgeCommunity: `str.lower()` is restricted to ASCII letters; full Unicode case mapping (which can change a text's length) is not modelled.
- The `include_engagement` and `include_followers` request fields are carried but, as in the source, have no effect.
- Concurrency of the async handlers: the model is sequential.
- `scripts/test-official-scweet.py`, a live integration script that scrapes over the network and prints a report, is not part of this model.
