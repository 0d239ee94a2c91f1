/** The presenter-based tweet-reply engine of pkg/application/usecase/usecase.go.

    Every collaborator is a parameter that reports its outcome: the media download
    service, the image classifier, the message converter and the Twitter presenter.
    Each operation returns, besides its Go results, the calls it made to them in
    order, so that what is posted, to whom and in which order can be stated. */
module Usecase {
  import opened Wrappers
  import opened GoTypes
  import opened Seqs
  import GoStrings
  import opened DomainTwitter

  const NoMediaReason := "tweet is ignored because it has no media"
  const NoKeywordReason := "tweet is ignored because it has no keyword"
  const SentByBotReason := "tweet is ignored because it is sent by bot"
  /** Separates the primary tweet's reason from the quoted tweet's. */
  const ReasonJoin := ", and "

  const ClassifyContext := "failed to classifyResult"
  const ConvertContext := "failed to convert classifyResult result to tweet text"
  const PostContext := "failed to post tweet"
  const PrimaryContext := "error occurred in ReplyToUser"
  const QuoteContext := "error occurred in JudgeAndPostPredictTweetUseCase"

  /** The retry count and interval (seconds) passed to the media download. */
  const RetryNum := 3
  const RetryInterval := 1

  /** The classifier's answer (its declaration is not part of this model). */
  datatype ClassifyResult = ClassifyResult(pred: string, confidence: string)

  /** A call to a collaborator. */
  datatype Call =
    | Download(tweet: Tweet, retryNum: int, retryInterval: int)
    | Classify(media: Bytes)
    | Convert(classifyResult: ClassifyResult)
    /** Presenter: a reply with a quote, recorded by its arguments — the user `to`, the
        id of the tweet replied to, the id of the quoted tweet, a screen name and the
        text. How the presenter uses them is not part of this model. */
    | ReplyWithQuote(to: TwitterUser, toTweetIdStr: string, quotedTweetIdStr: string,
                     quotedScreenName: string, text: string)
    /** Presenter: a plain post by `user`. */
    | Post(user: TwitterUser, text: string)

  /** What the presenter answers to a `ReplyWithQuote` or `Post` call. */
  type MessagePresenter = Call -> Outcome<Error>
  type ImageClassifierRepository = Bytes -> Result<ClassifyResult, Error>
  type MessageConverter = ClassifyResult -> Result<string, Error>
  /** `service.DownloadMediaFromTweet(tweet, retryNum, retryInterval)`. */
  type MediaDownloader = (Tweet, int, int) -> Result<Bytes, Error>

  datatype Config = Config(
    sendUser: TwitterUser,
    targetKeyword: string,
    errorTweetMessage: string,
    sorryTweetMessage: string,
    twitterPresenter: MessagePresenter,
    classifierRepository: ImageClassifierRepository,
    messageConverter: MessageConverter)

  function AsMessage(c: Call): Option<Call> {
    if c.ReplyWithQuote? || c.Post? then Some(c) else None
  }

  function AsDownload(c: Call): Option<Call> {
    if c.Download? then Some(c) else None
  }

  /** The presenter calls of a trace, in order. */
  function Messages(calls: seq<Call>): seq<Call> {
    Keep(calls, AsMessage)
  }

  /** The download calls of a trace, in order. */
  function Downloads(calls: seq<Call>): seq<Call> {
    Keep(calls, AsDownload)
  }

  /** `isTargetTweet`: a tweet triggers the bot when it has media, its text contains the
      keyword and the bot did not write it; otherwise the reason names the first of
      these rules, in that order, that fails. */
  function IsTargetTweet(conf: Config, tweet: Tweet): (r: (bool, string))
    ensures r.0 <==> |tweet.mediaURLs| > 0
                     && GoStrings.Contains(tweet.text, conf.targetKeyword)
                     && tweet.user.id != conf.sendUser.id
    ensures r.0 <==> r.1 == ""
    ensures |tweet.mediaURLs| == 0 ==> r.1 == NoMediaReason
    ensures |tweet.mediaURLs| > 0 && !GoStrings.Contains(tweet.text, conf.targetKeyword) ==>
              r.1 == NoKeywordReason
    ensures (|tweet.mediaURLs| > 0 && GoStrings.Contains(tweet.text, conf.targetKeyword)
             && tweet.user.id == conf.sendUser.id) ==> r.1 == SentByBotReason
  {
    if |tweet.mediaURLs| == 0 then (false, NoMediaReason)
    else if !GoStrings.Contains(tweet.text, conf.targetKeyword) then (false, NoKeywordReason)
    else if tweet.user.id == conf.sendUser.id then (false, SentByBotReason)
    else (true, "")
  }

  /** The text the download-classify-convert pipeline yields for `tweet`, or the error
      of the first stage that fails. */
  function PredText(conf: Config, download: MediaDownloader, tweet: Tweet): Result<string, Error> {
    match download(tweet, RetryNum, RetryInterval)
    case Failure(e) => Failure(e)
    case Success(media) =>
      match conf.classifierRepository(media)
      case Failure(e) => Failure(Wrapped(ClassifyContext, e))
      case Success(result) =>
        match conf.messageConverter(result)
        case Failure(e) => Failure(Wrapped(ConvertContext, e))
        case Success(text) => Success(text)
  }

  /** The calls the pipeline makes for `tweet`: the download, then the classifier on
      downloaded media, then the converter on a classification. */
  function PipelineCalls(conf: Config, download: MediaDownloader, tweet: Tweet): seq<Call> {
    var media := download(tweet, RetryNum, RetryInterval);
    [Download(tweet, RetryNum, RetryInterval)]
    + if media.Failure? then []
      else
        var classifyResult := conf.classifierRepository(media.value);
        [Classify(media.value)] + if classifyResult.Failure? then [] else [Convert(classifyResult.value)]
  }

  /** `tweetToPredText`: downloads with 3 retries 1 second apart, classifies only what
      was downloaded and converts only what was classified. */
  method TweetToPredText(conf: Config, download: MediaDownloader, tweet: Tweet)
    returns (text: string, err: Outcome<Error>, calls: seq<Call>)
    ensures err.Pass? <==> PredText(conf, download, tweet).Success?
    ensures err.Pass? ==> text == PredText(conf, download, tweet).value
    ensures err.Fail? ==> text == "" && err.error == PredText(conf, download, tweet).error
    ensures calls == PipelineCalls(conf, download, tweet)
  {
    calls := [Download(tweet, RetryNum, RetryInterval)];
    var media := download(tweet, RetryNum, RetryInterval);
    if media.Failure? {
      return "", Fail(media.error), calls;
    }

    calls := calls + [Classify(media.value)];
    var classifyResult := conf.classifierRepository(media.value);
    if classifyResult.Failure? {
      return "", Fail(Wrapped(ClassifyContext, classifyResult.error)), calls;
    }

    calls := calls + [Convert(classifyResult.value)];
    var tweetText := conf.messageConverter(classifyResult.value);
    if tweetText.Failure? {
      return "", Fail(Wrapped(ConvertContext, tweetText.error)), calls;
    }
    return tweetText.value, Pass, calls;
  }

  /** The pipeline's calls: the download of `tweet` with (3, 1) first, the classifier
      only on downloaded media, the converter only on a classification, and never a
      presenter call. */
  lemma PipelineCallsTrace(conf: Config, download: MediaDownloader, tweet: Tweet)
    ensures var calls := PipelineCalls(conf, download, tweet);
            && 1 <= |calls| <= 3 && calls[0] == Download(tweet, RetryNum, RetryInterval)
            && (|calls| >= 2 <==> download(tweet, RetryNum, RetryInterval).Success?)
            && (|calls| >= 2 ==> calls[1] == Classify(download(tweet, RetryNum, RetryInterval).value))
            && (|calls| == 3 <==> |calls| >= 2 && conf.classifierRepository(calls[1].media).Success?)
            && (|calls| == 3 ==> calls[2] == Convert(conf.classifierRepository(calls[1].media).value))
            && Downloads(calls) == [Download(tweet, RetryNum, RetryInterval)]
            && Messages(calls) == []
  {
    PipelineTrace(PipelineCalls(conf, download, tweet));
  }

  function ErrorText(conf: Config, now: string): string {
    conf.errorTweetMessage + " " + now
  }

  /** The two notifications, error text first, then the apology. */
  function Notices(conf: Config, now: string): seq<Call> {
    [Post(conf.sendUser, ErrorText(conf, now)), Post(conf.sendUser, conf.sorryTweetMessage)]
  }

  /** Posts the timestamped error message and then the sorry message as the bot; each
      post is attempted whatever the presenter answered to the one before, and a
      failure of either is only logged. */
  method NotifyFailure(conf: Config, now: string) returns (calls: seq<Call>)
    ensures calls == Notices(conf, now)
  {
    // The presenter's answer to each post is only logged, so neither is read here.
    var errorTweet := Post(conf.sendUser, ErrorText(conf, now));
    var sorryTweet := Post(conf.sendUser, conf.sorryTweetMessage);
    calls := [errorTweet, sorryTweet];
  }

  /** The observable outcome of processing the eligible tweet `target` on behalf of
      the incoming tweet `outer`: the pipeline's calls on `target` come first; when a
      text came out of it, exactly one reply-with-quote follows, with `outer`'s author,
      `outer`'s id, `target`'s id and `target`'s author's screen name; on any failure
      exactly the two notifications follow, last, and the error is wrapped in `context` (a presenter
      error first in "failed to post tweet" when `wrapPost`). */
  ghost predicate Replied(conf: Config, download: MediaDownloader, outer: Tweet, target: Tweet,
                          now: string, context: string, wrapPost: bool,
                          err: Outcome<Error>, calls: seq<Call>)
  {
    var text := PredText(conf, download, target);
    var reply := ReplyWithQuote(outer.user, GetIDStr(outer), GetIDStr(target),
                                target.user.screenName, if text.Success? then text.value else "");
    var answer := conf.twitterPresenter(reply);
    var failed := text.Failure? || answer.Fail?;
    && calls == PipelineCalls(conf, download, target) + (if text.Success? then [reply] else [])
                + (if failed then Notices(conf, now) else [])
    && (text.Failure? ==> err == Fail(Wrapped(context, text.error)))
    && (text.Success? && answer.Fail? ==>
          err == Fail(Wrapped(context, if wrapPost then Wrapped(PostContext, answer.error) else answer.error)))
    && (!failed ==> err == Pass)
  }

  /** What `Replied` means for the calls: one download, of `target`; the presenter sees
      the reply (when there is a text) and, on failure, the two notifications, last. */
  lemma RepliedTrace(conf: Config, download: MediaDownloader, outer: Tweet, target: Tweet,
                     now: string, context: string, wrapPost: bool,
                     err: Outcome<Error>, calls: seq<Call>)
    requires Replied(conf, download, outer, target, now, context, wrapPost, err, calls)
    ensures var text := PredText(conf, download, target);
            var reply := ReplyWithQuote(outer.user, GetIDStr(outer), GetIDStr(target),
                                        target.user.screenName, if text.Success? then text.value else "");
            var failed := text.Failure? || conf.twitterPresenter(reply).Fail?;
            && Downloads(calls) == [Download(target, RetryNum, RetryInterval)]
            && Messages(calls) == (if text.Success? then [reply] else []) + (if failed then Notices(conf, now) else [])
            && (failed ==> |calls| >= 2 && calls[|calls| - 2..] == Notices(conf, now))
            && (err.Fail? <==> failed)
  {
    var text := PredText(conf, download, target);
    var reply := ReplyWithQuote(outer.user, GetIDStr(outer), GetIDStr(target),
                                target.user.screenName, if text.Success? then text.value else "");
    var failed := text.Failure? || conf.twitterPresenter(reply).Fail?;
    var pipeline := PipelineCalls(conf, download, target);
    var messages := (if text.Success? then [reply] else []) + (if failed then Notices(conf, now) else []);
    assert calls == pipeline + messages;
    PipelineTrace(pipeline);
    ReplyTrace(pipeline, messages);
  }

  /** `ReplyToUser`: replies to the incoming tweet when it triggers the bot, otherwise to
      its quoted tweet when that one does; an ignored tweet makes no call and yields the
      reason(s); a failure yields an empty reason and an error. */
  method ReplyToUser(conf: Config, download: MediaDownloader, tweet: Tweet, now: string)
    returns (reason: string, err: Outcome<Error>, calls: seq<Call>)
    ensures err.Fail? ==> reason == ""
    ensures reason != "" ==> err.Pass? && calls == []
    ensures IsTargetTweet(conf, tweet).0 ==>
              reason == "" && Replied(conf, download, tweet, tweet, now, PrimaryContext, false, err, calls)
    ensures !IsTargetTweet(conf, tweet).0 && !HasQuoteTweet(tweet) ==>
              reason == IsTargetTweet(conf, tweet).1 && err.Pass? && calls == []
    ensures !IsTargetTweet(conf, tweet).0 && HasQuoteTweet(tweet)
            && !IsTargetTweet(conf, tweet.quoteTweet.value).0 ==>
              && reason == IsTargetTweet(conf, tweet).1 + ReasonJoin + IsTargetTweet(conf, tweet.quoteTweet.value).1
              && err.Pass? && calls == []
    ensures !IsTargetTweet(conf, tweet).0 && HasQuoteTweet(tweet)
            && IsTargetTweet(conf, tweet.quoteTweet.value).0 ==>
              reason == "" && Replied(conf, download, tweet, tweet.quoteTweet.value, now, QuoteContext, true, err, calls)
  {
    var (ok, primaryReason) := IsTargetTweet(conf, tweet);
    if ok {
      reason := "";
      err, calls := ReplyAndNotify(conf, download, tweet, tweet, now, PrimaryContext, false);
      return;
    }

    if !HasQuoteTweet(tweet) {
      return primaryReason, Pass, [];
    }

    var quote := tweet.quoteTweet.value;
    var (quoteOk, quoteReason) := IsTargetTweet(conf, quote);
    if !quoteOk {
      return primaryReason + ReasonJoin + quoteReason, Pass, [];
    }
    reason := "";
    err, calls := ReplyAndNotify(conf, download, tweet, quote, now, QuoteContext, true);
  }

  /** The two eligible branches of `ReplyToUser`: run the pipeline on `target`, reply
      with the result, and on failure post both notifications and wrap the error in
      `context`. In the quote branch (`wrapPost`) a presenter error is first wrapped in
      "failed to post tweet"; in the primary branch it is passed on as it is. */
  method ReplyAndNotify(conf: Config, download: MediaDownloader, outer: Tweet, target: Tweet,
                        now: string, context: string, wrapPost: bool)
    returns (err: Outcome<Error>, calls: seq<Call>)
    ensures Replied(conf, download, outer, target, now, context, wrapPost, err, calls)
  {
    var text, predErr, pipeline := TweetToPredText(conf, download, target);
    var messages: seq<Call> := [];
    var failure := predErr;
    if predErr.Pass? {
      var reply := ReplyWithQuote(outer.user, GetIDStr(outer), GetIDStr(target), target.user.screenName, text);
      messages := [reply];
      var answer := conf.twitterPresenter(reply);
      if answer.Fail? {
        failure := if wrapPost then Fail(Wrapped(PostContext, answer.error)) else answer;
      }
    }
    if failure.Fail? {
      var notices := NotifyFailure(conf, now);
      messages := messages + notices;
      err := Fail(Wrapped(context, failure.error));
    } else {
      err := Pass;
    }
    calls := pipeline + messages;
  }

  /** A pipeline trace: one download, first, then classifier and converter calls. */
  lemma PipelineTrace(calls: seq<Call>)
    requires |calls| >= 1 && calls[0].Download?
    requires forall i :: 1 <= i < |calls| ==> calls[i].Classify? || calls[i].Convert?
    ensures Downloads(calls) == [calls[0]] && Messages(calls) == []
  {
    KeepNone(calls[1..], AsDownload);
    KeepNone(calls, AsMessage);
  }

  /** A pipeline trace followed by presenter calls only. */
  lemma ReplyTrace(pipeline: seq<Call>, rest: seq<Call>)
    requires Messages(pipeline) == []
    requires forall c :: c in rest ==> c.ReplyWithQuote? || c.Post?
    ensures Downloads(pipeline + rest) == Downloads(pipeline)
    ensures Messages(pipeline + rest) == rest
  {
    KeepAppend(pipeline, rest, AsMessage);
    KeepAll(rest, AsMessage);
    KeepAppend(pipeline, rest, AsDownload);
    KeepNone(rest, AsDownload);
  }
}
