/** The domain `Tweet` record of pkg/domain/twitter/tweet.go and its accessors. */
module DomainTwitter {
  import opened Wrappers
  import opened GoTypes
  import Strconv

  /** `TwitterUser`: the author of a tweet (its declaration is not part of this model;
      the core reads only its id and screen name). */
  datatype TwitterUser = TwitterUser(id: Int64, screenName: string)

  /** A tweet. The quoted tweet is owned, so quote chains are finite and acyclic. */
  datatype Tweet = Tweet(
    id: Int64,
    user: TwitterUser,
    text: string,
    quoteTweet: Option<Tweet>,
    inReplyToStatusId: Int64,
    inReplyToUserId: Int64,
    inReplyToScreenName: string,
    mediaURLs: seq<string>)

  /** The id in base 10. Distinct ids give distinct strings, since the id parses back. */
  function GetIDStr(t: Tweet): (s: string)
    ensures Strconv.IsCanonicalInt(s)
    ensures Strconv.ParseInt(s) == t.id
  {
    Strconv.FormatInt(t.id)
  }

  predicate IsReply(t: Tweet) {
    t.inReplyToUserId != 0
  }

  predicate HasQuoteTweet(t: Tweet) {
    t.quoteTweet.Some?
  }
}
