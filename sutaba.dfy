/** The legacy tweet-reply engine of pkg/sutaba/usecase.go, which works on the API
    payload directly and serves several subscribed bot accounts.

    The media download, the classifier, `PredToText` and the Twitter API are
    parameters that report their outcomes. Each step returns its Go results together
    with the effects it had, in order: the collaborator calls and the API calls. */
module Sutaba {
  import opened Wrappers
  import opened GoTypes
  import opened Seqs
  import GoStrings
  import Anaconda
  import Twitter

  const NoMediaReason := "tweet is ignored because it has no media"
  const NoKeywordReason := "tweet is ignored because it has no keyword"
  const SentByBotReason := "tweet is ignored because it is sent by bot"
  const NotSentToSubscribeUserReason := "tweet is ignored because it is not sent to subscribe user"
  const ReasonJoin := ", and "

  const PredictContext := "failed to predict"
  const ConvertContext := "failed to convert predict result to tweet text"
  const PostContext := "failed to post tweet"
  const ReplyContext := "error occurred in JudgeAndPostPredictTweetUseCase"

  const RetryNum := 3
  const RetryInterval := 1

  /** The classifier's answer (its declaration is not part of this model). */
  datatype Prediction = Prediction(pred: string, confidence: string)

  /** `ClassifierClient.Predict`. */
  type ClassifierClient = Bytes -> Result<Prediction, Error>

  datatype Config = Config(
    sendUser: Twitter.User,
    classifierClient: ClassifierClient,
    errorTweetMessage: string,
    sorryTweetMessage: string)

  /** The package-level collaborators: `twitter.DownloadEntityMediaFromTweet`,
      `PredToText` and the Twitter API behind every account. */
  datatype Services = Services(
    downloadEntityMedia: (Anaconda.Tweet, int, int) -> Result<Bytes, Error>,
    predToText: Prediction -> Result<string, Error>,
    api: Twitter.Api)

  datatype Effect =
    | Download(tweet: Anaconda.Tweet, retryNum: int, retryInterval: int)
    | Predict(media: Bytes)
    | PredToText(prediction: Prediction)
    | Api(call: Twitter.ApiCall)

  /** A Go `(T, error)` result with the effects that produced it. */
  datatype Step<T> = Step(result: Result<T, Error>, effects: seq<Effect>)

  /** What `ReplyToUser` returns for one subscriber: the posted tweet (nil when nothing
      was posted), the reason the tweet was ignored ("" when it was not), the error. */
  datatype Reply = Reply(posted: Option<Anaconda.Tweet>, reason: string, err: Outcome<Error>,
                         effects: seq<Effect>)

  function AsApiCall(e: Effect): Option<Twitter.ApiCall> {
    if e.Api? then Some(e.call) else None
  }

  function AsDownload(e: Effect): Option<Effect> {
    if e.Download? then Some(e) else None
  }

  function AsErrorNotice(e: Effect): Option<Twitter.ApiCall> {
    if e.Api? && e.call.PostErrorTweet? then Some(e.call) else None
  }

  /** The API calls of a trace, in order. */
  function ApiCalls(effects: seq<Effect>): seq<Twitter.ApiCall> {
    Keep(effects, AsApiCall)
  }

  /** The downloads of a trace, in order. */
  function Downloads(effects: seq<Effect>): seq<Effect> {
    Keep(effects, AsDownload)
  }

  /** The error notifications of a trace, in order. */
  function ErrorNotices(effects: seq<Effect>): seq<Twitter.ApiCall> {
    Keep(effects, AsErrorNotice)
  }

  /** API calls as effects. */
  function ApiEffects(calls: seq<Twitter.ApiCall>): (effects: seq<Effect>)
    ensures ApiCalls(effects) == calls
    ensures Downloads(effects) == []
    ensures ErrorNotices(effects) == Keep(calls, (c: Twitter.ApiCall) => if c.PostErrorTweet? then Some(c) else None)
  {
    if calls == [] then [] else [Api(calls[0])] + ApiEffects(calls[1..])
  }

  /** `isTargetTweet`: the same three rules in the same order as the application
      engine, checked against the sending bot's keyword and id (never a subscriber's). */
  function IsTargetTweet(conf: Config, tweet: Anaconda.Tweet): (r: (bool, string))
    ensures r.0 <==> |tweet.media| > 0
                     && GoStrings.Contains(tweet.text, conf.sendUser.targetKeyword)
                     && tweet.user.id != conf.sendUser.id
    ensures r.0 <==> r.1 == ""
    ensures |tweet.media| == 0 ==> r.1 == NoMediaReason
    ensures (|tweet.media| > 0 && !GoStrings.Contains(tweet.text, conf.sendUser.targetKeyword)) ==>
              r.1 == NoKeywordReason
    ensures (|tweet.media| > 0 && GoStrings.Contains(tweet.text, conf.sendUser.targetKeyword)
             && tweet.user.id == conf.sendUser.id) ==> r.1 == SentByBotReason
  {
    if |tweet.media| == 0 then (false, NoMediaReason)
    else if !GoStrings.Contains(tweet.text, conf.sendUser.targetKeyword) then (false, NoKeywordReason)
    else if tweet.user.id == conf.sendUser.id then (false, SentByBotReason)
    else (true, "")
  }

  /** `tweetToPredText`: downloads with 3 retries 1 second apart, predicts only on what
      was downloaded and converts only what was predicted; it posts nothing. */
  function TweetToPredText(conf: Config, s: Services, tweet: Anaconda.Tweet): (r: Step<string>)
    ensures 1 <= |r.effects| <= 3 && r.effects[0] == Download(tweet, RetryNum, RetryInterval)
    ensures |r.effects| >= 2 <==> s.downloadEntityMedia(tweet, RetryNum, RetryInterval).Success?
    ensures |r.effects| >= 2 ==>
              r.effects[1] == Predict(s.downloadEntityMedia(tweet, RetryNum, RetryInterval).value)
    ensures |r.effects| == 3 <==> |r.effects| >= 2 && conf.classifierClient(r.effects[1].media).Success?
    ensures |r.effects| == 3 ==>
              r.effects[2] == PredToText(conf.classifierClient(r.effects[1].media).value)
    ensures r.result.Success? <==> |r.effects| == 3 && s.predToText(r.effects[2].prediction).Success?
    ensures r.result.Success? ==> r.result.value == s.predToText(r.effects[2].prediction).value
    // A download error is passed on as it is; the later stages' errors name their stage.
    ensures r.result.Failure? ==>
              r.result.error ==
                (if |r.effects| == 1 then s.downloadEntityMedia(tweet, RetryNum, RetryInterval).error
                 else if |r.effects| == 2 then Wrapped(PredictContext, conf.classifierClient(r.effects[1].media).error)
                 else Wrapped(ConvertContext, s.predToText(r.effects[2].prediction).error))
    ensures Downloads(r.effects) == [Download(tweet, RetryNum, RetryInterval)]
    ensures ApiCalls(r.effects) == [] && ErrorNotices(r.effects) == []
  {
    var download := Download(tweet, RetryNum, RetryInterval);
    match s.downloadEntityMedia(tweet, RetryNum, RetryInterval)
    case Failure(e) =>
      PipelineTrace([download]);
      Step(Failure(e), [download])
    case Success(media) =>
      match conf.classifierClient(media)
      case Failure(e) =>
        PipelineTrace([download, Predict(media)]);
        Step(Failure(Wrapped(PredictContext, e)), [download, Predict(media)])
      case Success(prediction) =>
        PipelineTrace([download, Predict(media), PredToText(prediction)]);
        match s.predToText(prediction)
        case Failure(e) =>
          Step(Failure(Wrapped(ConvertContext, e)), [download, Predict(media), PredToText(prediction)])
        case Success(text) =>
          Step(Success(text), [download, Predict(media), PredToText(prediction)])
  }

  /** `postPredictTweet`: the pipeline's text, after `prefix`, posted on `tweet` in the
      sending bot's reply mode; nothing is posted when the pipeline fails. */
  function PostPredictTweet(conf: Config, s: Services, tweet: Anaconda.Tweet, prefix: string)
    : (r: Step<Anaconda.Tweet>)
    ensures var text := TweetToPredText(conf, s, tweet);
            text.result.Failure? ==> r == Step(Failure(text.result.error), text.effects)
    ensures var text := TweetToPredText(conf, s, tweet);
            text.result.Success? ==>
              var posted := Twitter.PostByTweetType(conf.sendUser, s.api, prefix + text.result.value, tweet);
              && r.effects == text.effects + ApiEffects(posted.calls)
              && r.result == (if posted.result.Failure? then Failure(Wrapped(PostContext, posted.result.error))
                              else posted.result)
  {
    var text := TweetToPredText(conf, s, tweet);
    if text.result.Failure? then Step(Failure(text.result.error), text.effects)
    else
      var posted := Twitter.PostByTweetType(conf.sendUser, s.api, prefix + text.result.value, tweet);
      var effects := text.effects + ApiEffects(posted.calls);
      if posted.result.Failure? then Step(Failure(Wrapped(PostContext, posted.result.error)), effects)
      else Step(posted.result, effects)
  }

  /** The reply to the outer `tweet` that quotes its quoted status, made by the sending
      bot with the outer tweet's id and the outer author's screen name. */
  function QuoteReplyCall(conf: Config, tweet: Anaconda.Tweet, text: string): Twitter.ApiCall
    requires tweet.quotedStatus.Some?
  {
    Twitter.PostReplyWithQuoteMentioning(conf.sendUser.client, text, tweet.quotedStatus.value,
                                         tweet.idStr, [tweet.user.screenName])
  }

  /** The quote branch of `ReplyToUser` before error handling: the pipeline on the
      quoted status, then the quoting reply. */
  function PostQuoteReply(conf: Config, s: Services, tweet: Anaconda.Tweet): (r: Step<Anaconda.Tweet>)
    requires tweet.quotedStatus.Some?
    ensures var text := TweetToPredText(conf, s, tweet.quotedStatus.value);
            && Downloads(r.effects) == [Download(tweet.quotedStatus.value, RetryNum, RetryInterval)]
            && ApiCalls(r.effects) == (if text.result.Success? then [QuoteReplyCall(conf, tweet, text.result.value)] else [])
            && ErrorNotices(r.effects) == []
            && (r.result.Success? <==>
                  text.result.Success? && s.api(QuoteReplyCall(conf, tweet, text.result.value)).Success?)
    // The pipeline's effects come first, then the reply when there is a text; the API's
    // tweet is returned, a pipeline error as it is and an API error with the post stage.
    ensures var text := TweetToPredText(conf, s, tweet.quotedStatus.value);
            && r.effects == text.effects + (if text.result.Success? then [Api(QuoteReplyCall(conf, tweet, text.result.value))] else [])
            && (r.result.Success? ==> r.result.value == s.api(QuoteReplyCall(conf, tweet, text.result.value)).value)
            && (r.result.Failure? ==>
                  r.result.error == if text.result.Failure? then text.result.error
                                    else Wrapped(PostContext, s.api(QuoteReplyCall(conf, tweet, text.result.value)).error))
  {
    var text := TweetToPredText(conf, s, tweet.quotedStatus.value);
    if text.result.Failure? then Step(Failure(text.result.error), text.effects)
    else
      var call := QuoteReplyCall(conf, tweet, text.result.value);
      var effects := text.effects + [Api(call)];
      TraceAppend(text.effects, [Api(call)]);
      match s.api(call)
      case Failure(e) => Step(Failure(Wrapped(PostContext, e)), effects)
      case Success(posted) => Step(Success(posted), effects)
  }

  function ErrorText(conf: Config, now: string): string {
    conf.errorTweetMessage + " " + now
  }

  /** The notification the subscriber posts about a failure on `tweet`. */
  function ErrorNotice(conf: Config, sub: Twitter.User, tweet: Anaconda.Tweet, now: string): Twitter.ApiCall {
    Twitter.PostErrorTweet(sub.client, ErrorText(conf, now), conf.sorryTweetMessage, tweet.idStr, tweet.user.screenName)
  }

  /** The failure path of `ReplyToUser`: only an error-reporting subscriber posts the
      notification; the error is wrapped and returned in either case. */
  function ReportFailure(conf: Config, sub: Twitter.User, tweet: Anaconda.Tweet, now: string,
                         effects: seq<Effect>, e: Error): (r: Reply)
    ensures r.posted.None? && r.reason == "" && r.err == Fail(Wrapped(ReplyContext, e))
    ensures Downloads(r.effects) == Downloads(effects)
    ensures ApiCalls(r.effects) == ApiCalls(effects) + (if sub.isErrorReporter then [ErrorNotice(conf, sub, tweet, now)] else [])
    ensures ErrorNotices(r.effects) == ErrorNotices(effects) + (if sub.isErrorReporter then [ErrorNotice(conf, sub, tweet, now)] else [])
    ensures r.effects == effects + if sub.isErrorReporter then [Api(ErrorNotice(conf, sub, tweet, now))] else []
  {
    var notice := if sub.isErrorReporter then [Api(ErrorNotice(conf, sub, tweet, now))] else [];
    TraceAppend(effects, notice);
    Reply(None, "", Fail(Wrapped(ReplyContext, e)), effects + notice)
  }

  /** `ReplyToUser` for one subscriber. */
  function ReplyToUser(conf: Config, s: Services, tweet: Anaconda.Tweet, sub: Twitter.User, now: string)
    : (r: Reply)
    // Not addressed to the subscriber: ignored before any rule is checked.
    ensures tweet.inReplyToUserId != sub.id ==> r == Reply(None, NotSentToSubscribeUserReason, Pass, [])
    // An error comes with no reason and no tweet; otherwise a tweet is returned exactly
    // when no reason is, and an ignored tweet has no effect at all.
    ensures r.err.Fail? ==> r.reason == "" && r.posted.None?
    ensures r.err.Pass? ==> (r.reason == "" <==> r.posted.Some?)
    ensures r.reason != "" ==> r.err.Pass? && r.effects == []
    // Otherwise the quoted status is the fallback.
    ensures tweet.inReplyToUserId == sub.id && !IsTargetTweet(conf, tweet).0 && tweet.quotedStatus.None? ==>
              r.reason == IsTargetTweet(conf, tweet).1
    ensures tweet.inReplyToUserId == sub.id && !IsTargetTweet(conf, tweet).0 && tweet.quotedStatus.Some?
            && !IsTargetTweet(conf, tweet.quotedStatus.value).0 ==>
              r.reason == IsTargetTweet(conf, tweet).1 + ReasonJoin + IsTargetTweet(conf, tweet.quotedStatus.value).1
  {
    if tweet.inReplyToUserId != sub.id then Reply(None, NotSentToSubscribeUserReason, Pass, [])
    else
      var (ok, reason) := IsTargetTweet(conf, tweet);
      if ok then
        var posted := PostPredictTweet(conf, s, tweet, "");
        PostPredictTrace(conf, s, tweet);
        if posted.result.Failure? then ReportFailure(conf, sub, tweet, now, posted.effects, posted.result.error)
        else Reply(Some(posted.result.value), "", Pass, posted.effects)
      else if tweet.quotedStatus.None? then Reply(None, reason, Pass, [])
      else
        var (quoteOk, quoteReason) := IsTargetTweet(conf, tweet.quotedStatus.value);
        if !quoteOk then Reply(None, reason + ReasonJoin + quoteReason, Pass, [])
        else
          var posted := PostQuoteReply(conf, s, tweet);
          if posted.result.Failure? then ReportFailure(conf, sub, tweet, now, posted.effects, posted.result.error)
          else Reply(Some(posted.result.value), "", Pass, posted.effects)
  }

  /** The notification of `ReplyToUser` is posted exactly on an error, and only by a
      subscriber that reports errors. */
  lemma ReplyToUserNotices(conf: Config, s: Services, tweet: Anaconda.Tweet, sub: Twitter.User, now: string)
    ensures var r := ReplyToUser(conf, s, tweet, sub, now);
            ErrorNotices(r.effects) ==
              if r.err.Fail? && sub.isErrorReporter then [ErrorNotice(conf, sub, tweet, now)] else []
  {
    var r := ReplyToUser(conf, s, tweet, sub, now);
    if tweet.inReplyToUserId != sub.id {
    } else if IsTargetTweet(conf, tweet).0 {
      PostPredictTrace(conf, s, tweet);
      var posted := PostPredictTweet(conf, s, tweet, "");
      if posted.result.Failure? {
        assert r == ReportFailure(conf, sub, tweet, now, posted.effects, posted.result.error);
      }
    } else if tweet.quotedStatus.Some? && IsTargetTweet(conf, tweet.quotedStatus.value).0 {
      var posted := PostQuoteReply(conf, s, tweet);
      if posted.result.Failure? {
        assert r == ReportFailure(conf, sub, tweet, now, posted.effects, posted.result.error);
      }
    }
  }

  /** An eligible tweet addressed to the subscriber is downloaded and posted on in the
      bot's reply mode; a failure adds the subscriber's notification. */
  lemma ReplyToUserTrace(conf: Config, s: Services, tweet: Anaconda.Tweet, sub: Twitter.User, now: string)
    requires tweet.inReplyToUserId == sub.id && IsTargetTweet(conf, tweet).0
    ensures var r := ReplyToUser(conf, s, tweet, sub, now);
            var text := TweetToPredText(conf, s, tweet);
            && Downloads(r.effects) == [Download(tweet, RetryNum, RetryInterval)]
            && ApiCalls(r.effects) ==
                 (if text.result.Success? then Twitter.PostByTweetType(conf.sendUser, s.api, text.result.value, tweet).calls else [])
                 + (if r.err.Fail? && sub.isErrorReporter then [ErrorNotice(conf, sub, tweet, now)] else [])
            && (r.err.Pass? <==> PostPredictTweet(conf, s, tweet, "").result.Success?)
            && (r.err.Pass? ==> r.posted == Some(PostPredictTweet(conf, s, tweet, "").result.value))
            && (r.err.Fail? ==> r.err.error == Wrapped(ReplyContext, PostPredictTweet(conf, s, tweet, "").result.error))
    // The pipeline and the post come first, the notification (if any) last.
    ensures var r := ReplyToUser(conf, s, tweet, sub, now);
            r.effects == PostPredictTweet(conf, s, tweet, "").effects
                         + if r.err.Fail? && sub.isErrorReporter then [Api(ErrorNotice(conf, sub, tweet, now))] else []
  {
    var r := ReplyToUser(conf, s, tweet, sub, now);
    PostPredictTrace(conf, s, tweet);
    var posted := PostPredictTweet(conf, s, tweet, "");
    if posted.result.Failure? {
      assert r == ReportFailure(conf, sub, tweet, now, posted.effects, posted.result.error);
    } else {
      assert r == Reply(Some(posted.result.value), "", Pass, posted.effects);
    }
  }

  /** An ineligible tweet whose quoted status is eligible: the quoted status is downloaded
      and answered with a quoting reply; a failure adds the subscriber's notification. */
  lemma ReplyToUserQuoteTrace(conf: Config, s: Services, tweet: Anaconda.Tweet, sub: Twitter.User, now: string)
    requires tweet.inReplyToUserId == sub.id && !IsTargetTweet(conf, tweet).0
    requires tweet.quotedStatus.Some? && IsTargetTweet(conf, tweet.quotedStatus.value).0
    ensures var r := ReplyToUser(conf, s, tweet, sub, now);
            var text := TweetToPredText(conf, s, tweet.quotedStatus.value);
            && Downloads(r.effects) == [Download(tweet.quotedStatus.value, RetryNum, RetryInterval)]
            && ApiCalls(r.effects) ==
                 (if text.result.Success? then [QuoteReplyCall(conf, tweet, text.result.value)] else [])
                 + (if r.err.Fail? && sub.isErrorReporter then [ErrorNotice(conf, sub, tweet, now)] else [])
            && (r.err.Pass? <==>
                  text.result.Success? && s.api(QuoteReplyCall(conf, tweet, text.result.value)).Success?)
    // The answer carries the posted reply or the quote branch's error wrapped in the
    // use-case context; the notification (if any) follows the pipeline and the reply.
    ensures var r := ReplyToUser(conf, s, tweet, sub, now);
            var posted := PostQuoteReply(conf, s, tweet);
            && (r.err.Pass? ==> r.posted == Some(posted.result.value))
            && (r.err.Fail? ==> r.err.error == Wrapped(ReplyContext, posted.result.error))
            && r.effects == posted.effects
                            + if r.err.Fail? && sub.isErrorReporter then [Api(ErrorNotice(conf, sub, tweet, now))] else []
  {
    var r := ReplyToUser(conf, s, tweet, sub, now);
    var posted := PostQuoteReply(conf, s, tweet);
    if posted.result.Failure? {
      assert r == ReportFailure(conf, sub, tweet, now, posted.effects, posted.result.error);
    } else {
      assert r == Reply(Some(posted.result.value), "", Pass, posted.effects);
    }
  }

  /** The traces of `PostPredictTweet`: one download of `tweet`, the reply-mode post when
      there is a text, no notification. */
  lemma PostPredictTrace(conf: Config, s: Services, tweet: Anaconda.Tweet)
    ensures var text := TweetToPredText(conf, s, tweet);
            var r := PostPredictTweet(conf, s, tweet, "");
            && Downloads(r.effects) == [Download(tweet, RetryNum, RetryInterval)]
            && ApiCalls(r.effects) ==
                 (if text.result.Success? then Twitter.PostByTweetType(conf.sendUser, s.api, text.result.value, tweet).calls else [])
            && ErrorNotices(r.effects) == []
  {
    var text := TweetToPredText(conf, s, tweet);
    if text.result.Success? {
      var posted := Twitter.PostByTweetType(conf.sendUser, s.api, "" + text.result.value, tweet);
      assert "" + text.result.value == text.result.value;
      TraceAppend(text.effects, ApiEffects(posted.calls));
      assert posted.calls == [] || !posted.calls[0].PostErrorTweet?;
      NoNotices(posted.calls);
    }
  }

  lemma NoNotices(calls: seq<Twitter.ApiCall>)
    requires |calls| <= 1 && (calls == [] || !calls[0].PostErrorTweet?)
    ensures Keep(calls, (c: Twitter.ApiCall) => if c.PostErrorTweet? then Some(c) else None) == []
  {
  }

  /** The three readings of a trace split in two. */
  lemma TraceAppend(a: seq<Effect>, b: seq<Effect>)
    ensures ApiCalls(a + b) == ApiCalls(a) + ApiCalls(b)
    ensures Downloads(a + b) == Downloads(a) + Downloads(b)
    ensures ErrorNotices(a + b) == ErrorNotices(a) + ErrorNotices(b)
  {
    KeepAppend(a, b, AsApiCall);
    KeepAppend(a, b, AsDownload);
    KeepAppend(a, b, AsErrorNotice);
  }

  /** A pipeline trace: a download first, then only classifier and converter calls. */
  lemma PipelineTrace(effects: seq<Effect>)
    requires |effects| >= 1 && effects[0].Download?
    requires forall i :: 1 <= i < |effects| ==> effects[i].Predict? || effects[i].PredToText?
    ensures Downloads(effects) == [effects[0]]
    ensures ApiCalls(effects) == [] && ErrorNotices(effects) == []
  {
    KeepNone(effects[1..], AsDownload);
    KeepNone(effects, AsApiCall);
    KeepNone(effects, AsErrorNotice);
  }

  /** The answer `ReplyToUser` gives each subscriber, in subscriber order. */
  ghost function Outcomes(conf: Config, s: Services, tweet: Anaconda.Tweet,
                          subs: seq<Twitter.User>, now: string): (rs: seq<Reply>)
    ensures |rs| == |subs|
    decreases |subs|
  {
    if subs == [] then []
    else Outcomes(conf, s, tweet, subs[..|subs| - 1], now) + [ReplyToUser(conf, s, tweet, subs[|subs| - 1], now)]
  }

  /** An answer without error carries its posted tweet exactly when it gives no reason. */
  ghost predicate Consistent(r: Reply) {
    r.err.Pass? ==> (r.reason == "" <==> r.posted.Some?)
  }

  /** The posted tweets of the answers that gave no reason, in order. */
  function PostedOf(rs: seq<Reply>): seq<Option<Anaconda.Tweet>>
    decreases |rs|
  {
    if rs == [] then []
    else PostedOf(rs[..|rs| - 1]) + (if rs[|rs| - 1].reason == "" then [rs[|rs| - 1].posted] else [])
  }

  /** The reasons of the answers that gave one, in order. */
  function ReasonsOf(rs: seq<Reply>): seq<string>
    decreases |rs|
  {
    if rs == [] then []
    else ReasonsOf(rs[..|rs| - 1]) + (if rs[|rs| - 1].reason != "" then [rs[|rs| - 1].reason] else [])
  }

  /** All effects of the answers, one answer after the other. */
  function EffectsOf(rs: seq<Reply>): seq<Effect>
    decreases |rs|
  {
    if rs == [] then [] else EffectsOf(rs[..|rs| - 1]) + rs[|rs| - 1].effects
  }

  predicate AllSucceeded(rs: seq<Reply>) {
    forall i :: 0 <= i < |rs| ==> rs[i].err.Pass?
  }

  /** The last answer is an error and it is the first one. */
  predicate FailsLast(rs: seq<Reply>) {
    rs != [] && rs[|rs| - 1].err.Fail? && AllSucceeded(rs[..|rs| - 1])
  }

  /** `ReplyToUsers`: answers the subscribers in order. On the first error it stops,
      later subscribers have no effect, and it returns only that error. Otherwise every
      subscriber adds its posted tweet or its ignore reason, keeping subscriber order. */
  method ReplyToUsers(conf: Config, s: Services, tweet: Anaconda.Tweet, subs: seq<Twitter.User>, now: string)
    returns (postedTweets: seq<Option<Anaconda.Tweet>>, ignoreReasons: seq<string>,
             err: Outcome<Error>, effects: seq<Effect>)
    ensures err.Pass? <==> AllSucceeded(Outcomes(conf, s, tweet, subs, now))
    ensures err.Pass? ==>
              var rs := Outcomes(conf, s, tweet, subs, now);
              postedTweets == PostedOf(rs) && ignoreReasons == ReasonsOf(rs) && effects == EffectsOf(rs)
    ensures err.Fail? ==>
              && postedTweets == [] && ignoreReasons == []
              && exists n :: 0 < n <= |subs| &&
                   var done := Outcomes(conf, s, tweet, subs[..n], now);
                   FailsLast(done) && err == done[n - 1].err && effects == EffectsOf(done)
  {
    ghost var done: seq<Reply> := [];
    postedTweets, ignoreReasons, effects := [], [], [];
    for i := 0 to |subs|
      invariant done == Outcomes(conf, s, tweet, subs[..i], now)
      invariant AllSucceeded(done)
      invariant postedTweets == PostedOf(done)
      invariant ignoreReasons == ReasonsOf(done)
      invariant effects == EffectsOf(done)
    {
      var r := ReplyToUser(conf, s, tweet, subs[i], now);
      OutcomesStep(conf, s, tweet, subs, now, i);
      AnswerStep(done, r);
      SuccessStep(done, r);
      done := done + [r];
      effects := effects + r.effects;
      if r.err.Fail? {
        OutcomesPrefix(conf, s, tweet, subs, now, i + 1);
        assert Outcomes(conf, s, tweet, subs, now)[i] == r;
        return [], [], r.err, effects;
      }
      if r.reason == "" {
        postedTweets := postedTweets + [r.posted];
      } else {
        ignoreReasons := ignoreReasons + [r.reason];
      }
    }
    assert subs[..|subs|] == subs;
    return postedTweets, ignoreReasons, Pass, effects;
  }

  /** Answering one more subscriber appends one answer. */
  lemma OutcomesStep(conf: Config, s: Services, tweet: Anaconda.Tweet,
                     subs: seq<Twitter.User>, now: string, i: nat)
    requires i < |subs|
    ensures Outcomes(conf, s, tweet, subs[..i + 1], now)
            == Outcomes(conf, s, tweet, subs[..i], now) + [ReplyToUser(conf, s, tweet, subs[i], now)]
  {
    assert subs[..i + 1][..i] == subs[..i];
  }

  /** How one more answer extends the collected lists. */
  lemma AnswerStep(done: seq<Reply>, r: Reply)
    ensures PostedOf(done + [r]) == PostedOf(done) + (if r.reason == "" then [r.posted] else [])
    ensures ReasonsOf(done + [r]) == ReasonsOf(done) + (if r.reason != "" then [r.reason] else [])
    ensures EffectsOf(done + [r]) == EffectsOf(done) + r.effects
  {
  }

  /** One more answer keeps the run successful exactly when it is not an error, and an
      error after a successful run is the first one. */
  lemma SuccessStep(done: seq<Reply>, r: Reply)
    ensures AllSucceeded(done + [r]) <==> AllSucceeded(done) && r.err.Pass?
    ensures FailsLast(done + [r]) <==> AllSucceeded(done) && r.err.Fail?
  {
    assert (done + [r])[..|done|] == done;
    if AllSucceeded(done + [r]) {
      assert (done + [r])[|done|] == r;
      forall i | 0 <= i < |done| ensures done[i].err.Pass? {
        assert (done + [r])[i] == done[i];
      }
    }
  }

  /** The answers to a prefix of the subscribers are a prefix of the answers. */
  lemma {:induction false} OutcomesPrefix(conf: Config, s: Services, tweet: Anaconda.Tweet,
                                          subs: seq<Twitter.User>, now: string, n: nat)
    requires n <= |subs|
    ensures Outcomes(conf, s, tweet, subs[..n], now) == Outcomes(conf, s, tweet, subs, now)[..n]
    decreases |subs|
  {
    if n == |subs| {
      assert subs[..n] == subs;
    } else {
      var init := subs[..|subs| - 1];
      OutcomesPrefix(conf, s, tweet, init, now, n);
      assert init[..n] == subs[..n];
    }
  }

  /** Every answer lands in exactly one of the two lists. */
  lemma {:induction false} PartitionSize(rs: seq<Reply>)
    ensures |PostedOf(rs)| + |ReasonsOf(rs)| == |rs|
    decreases |rs|
  {
    if rs != [] {
      PartitionSize(rs[..|rs| - 1]);
    }
  }

  /** On success the two lists together have one entry per subscriber, the posted list
      holds no nil tweet and the reason list no empty reason. */
  lemma {:induction false} ReplyToUsersPartition(conf: Config, s: Services, tweet: Anaconda.Tweet,
                                                 subs: seq<Twitter.User>, now: string)
    requires AllSucceeded(Outcomes(conf, s, tweet, subs, now))
    ensures var rs := Outcomes(conf, s, tweet, subs, now);
            && |PostedOf(rs)| + |ReasonsOf(rs)| == |subs|
            && (forall p :: p in PostedOf(rs) ==> p.Some?)
            && (forall reason :: reason in ReasonsOf(rs) ==> reason != "")
  {
    var rs := Outcomes(conf, s, tweet, subs, now);
    OutcomesConsistent(conf, s, tweet, subs, now);
    PartitionSize(rs);
    PostedNonNil(rs);
    ReasonsNonEmpty(rs);
  }

  lemma {:induction false} OutcomesConsistent(conf: Config, s: Services, tweet: Anaconda.Tweet,
                                              subs: seq<Twitter.User>, now: string)
    ensures forall i :: 0 <= i < |subs| ==> Consistent(Outcomes(conf, s, tweet, subs, now)[i])
    decreases |subs|
  {
    if subs != [] {
      var init := subs[..|subs| - 1];
      OutcomesConsistent(conf, s, tweet, init, now);
      var rs := Outcomes(conf, s, tweet, subs, now);
      forall i | 0 <= i < |rs| ensures Consistent(rs[i]) {
        if i < |init| {
          assert rs[i] == Outcomes(conf, s, tweet, init, now)[i];
        }
      }
    }
  }

  lemma {:induction false} PostedNonNil(rs: seq<Reply>)
    requires AllSucceeded(rs) && forall i :: 0 <= i < |rs| ==> Consistent(rs[i])
    ensures forall p :: p in PostedOf(rs) ==> p.Some?
    decreases |rs|
  {
    if rs != [] {
      assert AllSucceeded(rs[..|rs| - 1]);
      PostedNonNil(rs[..|rs| - 1]);
      assert Consistent(rs[|rs| - 1]);
    }
  }

  lemma {:induction false} ReasonsNonEmpty(rs: seq<Reply>)
    ensures forall reason :: reason in ReasonsOf(rs) ==> reason != ""
    decreases |rs|
  {
    if rs != [] {
      ReasonsNonEmpty(rs[..|rs| - 1]);
    }
  }
}
