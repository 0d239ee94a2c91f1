/** The bot account of pkg/twitter/user.go: its configuration and the posting strategy
    selected by its reply mode. Posting goes through the Twitter API, which this model
    sees only as the outcome it reports for each call. */
module Twitter {
  import opened Wrappers
  import opened GoTypes
  import Anaconda

  /** The reply mode: a Go `int` whose four named values start at 1, so the zero value
      names no mode. */
  type TweetType = int

  const Tweet: TweetType := 1
  const Reply: TweetType := 2
  const QuoteTweet: TweetType := 3
  const ReplyWithQuote: TweetType := 4

  /** The credentials the API client is built from; they identify the posting account. */
  datatype Credentials = Credentials(
    accessToken: string,
    accessTokenSecret: string,
    consumerKey: string,
    consumerSecret: string)

  /** A bot account. No field changes after construction. */
  datatype User = User(
    client: Credentials,
    id: Int64,
    targetKeyword: string,
    isErrorReporter: bool,
    tweetType: TweetType)

  /** A call made to the Twitter API on behalf of the account `sender`. */
  datatype ApiCall =
    /** A plain status update, with no reply or quote parameters. */
    | PostTweet(sender: Credentials, text: string)
    | PostReply(sender: Credentials, text: string, toScreenName: string, toTweetIdStr: string)
    | PostQuoteTweet(sender: Credentials, text: string, quoteTweet: Anaconda.Tweet)
    | PostReplyWithQuote(sender: Credentials, text: string, quoteTweet: Anaconda.Tweet,
                         toScreenName: string, toTweetIdStr: string)
    /** The reply-with-quote call pkg/sutaba/usecase.go makes with a tweet id string
        and a list of screen names, which the declared `PostReplyWithQuote` does not take. */
    | PostReplyWithQuoteMentioning(sender: Credentials, text: string, quoteTweet: Anaconda.Tweet,
                                   toTweetIdStr: string, screenNames: seq<string>)
    /** The `PostErrorTweet` call pkg/sutaba/usecase.go makes; user.go declares no such
        method, so it stays an opaque API action. */
    | PostErrorTweet(sender: Credentials, errorText: string, sorryText: string,
                     toTweetIdStr: string, toScreenName: string)

  /** What the Twitter API answers to each call: the posted tweet or an error. */
  type Api = ApiCall -> Result<Anaconda.Tweet, Error>

  /** The result of a posting operation with the API calls it made, in order. */
  datatype Posted = Posted(result: Result<Anaconda.Tweet, Error>, calls: seq<ApiCall>)

  predicate IsKnownTweetType(tt: TweetType) {
    tt == Tweet || tt == Reply || tt == QuoteTweet || tt == ReplyWithQuote
  }

  /** `NewUser` keeps every setting it is given. */
  function NewUser(accessToken: string, accessTokenSecret: string,
                   consumerKey: string, consumerSecret: string,
                   id: Int64, keyword: string, isErrorReporter: bool,
                   tweetType: TweetType): (u: User)
    ensures u.client == Credentials(accessToken, accessTokenSecret, consumerKey, consumerSecret)
    ensures u.id == id && u.targetKeyword == keyword
    ensures u.isErrorReporter == isErrorReporter && u.tweetType == tweetType
  {
    User(Credentials(accessToken, accessTokenSecret, consumerKey, consumerSecret),
         id, keyword, isErrorReporter, tweetType)
  }

  /** Posts `text` in the account's reply mode: exactly one API call for each of the four
      modes, none and an "unknown TweetType" error for any other value (the zero value
      included). */
  function PostByTweetType(u: User, api: Api, text: string, tweet: Anaconda.Tweet): (r: Posted)
    ensures IsKnownTweetType(u.tweetType) <==> |r.calls| == 1
    ensures !IsKnownTweetType(u.tweetType) ==>
              r.calls == [] && r.result == Failure(UnknownTweetType(u.tweetType))
    ensures IsKnownTweetType(u.tweetType) ==>
              r.calls[0].sender == u.client && r.result == api(r.calls[0])
    ensures u.tweetType == Tweet ==> r.calls[0] == PostTweet(u.client, text)
    ensures u.tweetType == Reply ==>
              r.calls[0] == PostReply(u.client, text, tweet.user.screenName, tweet.idStr)
    ensures u.tweetType == QuoteTweet ==>
              r.calls[0] == PostQuoteTweet(u.client, text, tweet)
    ensures u.tweetType == ReplyWithQuote ==>
              r.calls[0] == PostReplyWithQuote(u.client, text, tweet, tweet.user.screenName, tweet.idStr)
  {
    var call :=
      if u.tweetType == Tweet then Some(PostTweet(u.client, text))
      else if u.tweetType == Reply then Some(PostReply(u.client, text, tweet.user.screenName, tweet.idStr))
      else if u.tweetType == QuoteTweet then Some(PostQuoteTweet(u.client, text, tweet))
      else if u.tweetType == ReplyWithQuote then
        Some(PostReplyWithQuote(u.client, text, tweet, tweet.user.screenName, tweet.idStr))
      else None;
    match call
    case Some(c) => Posted(api(c), [c])
    case None => Posted(Failure(UnknownTweetType(u.tweetType)), [])
  }

  /** Logs `err` (not modelled) and makes one plain post of `text`; whatever the API
      answers, nothing is returned to the caller. */
  function LogAndPostErrorTweet(u: User, api: Api, text: string, err: Error): (calls: seq<ApiCall>)
    ensures calls == [PostTweet(u.client, text)]
  {
    // The API's answer to the post is discarded, so it does not appear here.
    [PostTweet(u.client, text)]
  }
}
