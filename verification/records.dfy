/**
 * The service's response shapes and the two kinds of data the scraping library
 * hands back, with the functions that turn library data into responses
 * (the `response_data` dictionaries of the three endpoints).
 */
module Records {
  import opened Wrappers
  import Community

  const Source: string := "scweet"

  /** The `author` sub-dictionary of a tweet response. */
  datatype Author = Author(
    username: string,
    displayName: string,
    verified: bool,
    followersCount: int,
    followingCount: int)

  /** The `engagement` sub-dictionary of a tweet response. */
  datatype Engagement = Engagement(likes: int, retweets: int, replies: int)

  /** `TweetResponse`. */
  datatype TweetResponse = TweetResponse(
    tweetId: string,
    content: string,
    author: Author,
    engagement: Engagement,
    createdAt: string,
    source: string,
    isFromLayerEdgeCommunity: bool)

  /** `EngagementResponse`. */
  datatype EngagementResponse = EngagementResponse(
    likes: int,
    retweets: int,
    replies: int,
    timestamp: string,
    source: string)

  /** `UserInfoResponse`. */
  datatype UserInfoResponse = UserInfoResponse(
    username: string,
    displayName: string,
    bio: string,
    followersCount: int,
    followingCount: int,
    verified: bool,
    location: Option<string>,
    website: Option<string>,
    joinDate: Option<string>)

  /** One tweet dictionary from the library's `scrape`; `None` is a missing key. */
  datatype ScrapedTweet = ScrapedTweet(
    tweetId: Option<string>,
    text: Option<string>,
    likes: Option<int>,
    retweets: Option<int>,
    replies: Option<int>,
    timestamp: Option<string>)

  /** One profile dictionary from the library's `get_user_information`; `None` is a missing key. */
  datatype Profile = Profile(
    name: Option<string>,
    description: Option<string>,
    verified: Option<bool>,
    followers: Option<int>,
    following: Option<int>,
    location: Option<string>,
    website: Option<string>,
    joinDate: Option<string>)

  /** The empty dictionary `{}` the tweet endpoint starts from when it has no profile. */
  const NoProfile: Profile := Profile(None, None, None, None, None, None, None, None)

  /** `value` is what `dict.get(key, default)` gives: the field when present, `default` when missing. */
  predicate FieldOr<T(==)>(field: Option<T>, default: T, value: T) {
    (field.Some? ==> value == field.value) && (field.None? ==> value == default)
  }

  /** The `author` of a tweet response, from the handle and whatever profile was found: every
      field is the profile's field when present and its default when missing. */
  function AuthorOf(username: string, info: Profile): (a: Author)
    ensures a.username == username
    ensures FieldOr(info.name, username, a.displayName)
    ensures FieldOr(info.verified, false, a.verified)
    ensures FieldOr(info.followers, 0, a.followersCount)
    ensures FieldOr(info.following, 0, a.followingCount)
  {
    Author(
      username,
      info.name.GetOr(username),
      info.verified.GetOr(false),
      info.followers.GetOr(0),
      info.following.GetOr(0))
  }

  /** The `response_data` of a freshly scraped tweet. */
  function TweetResponseOf(tweetId: string, username: string, tweet: ScrapedTweet, info: Profile, now: string): (r: TweetResponse)
    ensures r.tweetId == tweetId && r.author.username == username && r.source == Source
    ensures r.isFromLayerEdgeCommunity == Community.CheckLayerEdgeCommunity(r.content)
  {
    var content := tweet.text.GetOr("");
    TweetResponse(
      tweetId,
      content,
      AuthorOf(username, info),
      Engagement(tweet.likes.GetOr(0), tweet.retweets.GetOr(0), tweet.replies.GetOr(0)),
      tweet.timestamp.GetOr(now),
      Source,
      Community.CheckLayerEdgeCommunity(content))
  }

  /** The `response_data` of the engagement endpoint: the tweet response's three counts,
      stamped with the current time. */
  function EngagementOf(tweet: TweetResponse, now: string): (e: EngagementResponse)
    ensures e.likes == tweet.engagement.likes
    ensures e.retweets == tweet.engagement.retweets
    ensures e.replies == tweet.engagement.replies
    ensures e.timestamp == now && e.source == Source
  {
    EngagementResponse(tweet.engagement.likes, tweet.engagement.retweets, tweet.engagement.replies, now, Source)
  }

  /** The `response_data` of the user endpoint: every field is the profile's field when present
      and its default when missing; location, website and join date are passed through. */
  function UserInfoOf(username: string, info: Profile): (u: UserInfoResponse)
    ensures u.username == username
    ensures FieldOr(info.name, username, u.displayName)
    ensures FieldOr(info.description, "", u.bio)
    ensures FieldOr(info.followers, 0, u.followersCount)
    ensures FieldOr(info.following, 0, u.followingCount)
    ensures FieldOr(info.verified, false, u.verified)
    ensures u.location == info.location && u.website == info.website && u.joinDate == info.joinDate
  {
    UserInfoResponse(
      username,
      info.name.GetOr(username),
      info.description.GetOr(""),
      info.followers.GetOr(0),
      info.following.GetOr(0),
      info.verified.GetOr(false),
      info.location,
      info.website,
      info.joinDate)
  }

  /** Without a profile the author fields take their defaults. */
  lemma AuthorDefaults(username: string)
    ensures AuthorOf(username, NoProfile) == Author(username, username, false, 0, 0)
  {
  }

  /** A scraped tweet with no fields at all still yields a complete response. */
  lemma TweetResponseDefaults(tweetId: string, username: string, now: string)
    ensures TweetResponseOf(tweetId, username, ScrapedTweet(Some(tweetId), None, None, None, None, None), NoProfile, now)
      == TweetResponse(tweetId, "", Author(username, username, false, 0, 0), Engagement(0, 0, 0), now, Source, false)
  {
    assert !Community.CheckLayerEdgeCommunity("");
  }

  /** Every field of a built tweet response is the scraped field when present and its default when
      missing, field by field, whatever mix of fields is present. */
  lemma TweetResponseOfFields(tweetId: string, username: string, tweet: ScrapedTweet, info: Profile, now: string)
    ensures var r := TweetResponseOf(tweetId, username, tweet, info, now);
      && r.author == AuthorOf(username, info)
      && FieldOr(tweet.text, "", r.content)
      && FieldOr(tweet.likes, 0, r.engagement.likes)
      && FieldOr(tweet.retweets, 0, r.engagement.retweets)
      && FieldOr(tweet.replies, 0, r.engagement.replies)
      && FieldOr(tweet.timestamp, now, r.createdAt)
  {
  }

  /** Without profile fields the user response takes its defaults; the optional fields stay absent. */
  lemma UserInfoDefaults(username: string)
    ensures UserInfoOf(username, NoProfile) == UserInfoResponse(username, username, "", 0, 0, false, None, None, None)
  {
  }
}
