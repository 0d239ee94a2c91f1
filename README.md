# Tweet-reply decision engine of sutaba-server, in Dafny

sutaba-server is a Twitter bot. Someone tweets an image at it, usually with a keyword and
often by quoting someone else's tweet. The bot then:

1. decides whether the tweet (or, failing that, its quoted tweet) triggers it;
2. downloads the image and classifies it;
3. turns the classification into text;
4. posts a reply.

When any of these steps fails, it posts a best-effort error notification.

This project models that engine and its supporting logic:

- **`Usecase`** (`usecase.dfy`) is the current, presenter-based engine of
  `pkg/application/usecase/usecase.go`. It has:
  - the three ordered eligibility rules;
  - the primary/quote fallback with the `", and "` reason join;
  - the download → classify → convert pipeline;
  - the reply through the presenter;
  - on failure, the two notification posts (error text, then apology).

  `TweetToPredText`, `ReplyToUser`, `ReplyAndNotify` and `NotifyFailure` are methods. Each
  returns the Go results together with the calls it made, in order. Each is proved against
  the specification functions `PredText`, `Notices` and the predicate `Replied`.
- **`Sutaba`** (`sutaba.dfy`) is the legacy engine of `pkg/sutaba/usecase.go`. It adds:
  - the "addressed to this subscriber" check;
  - posting through the bot's reply mode;
  - the quoting reply to the outer tweet;
  - a notification sent only by error-reporting subscribers;
  - the loop over subscribers.

  The per-subscriber steps are functions that return their effects. The loop
  `ReplyToUsers` is a method with a `for` loop, proved against `Outcomes`, the answers that
  `ReplyToUser` gives each subscriber.
- **`Twitter`** (`twitter_user.dfy`) is the bot account of `pkg/twitter/user.go`:
  - the four reply modes, 1 to 4;
  - `NewUser`;
  - the `PostByTweetType` dispatch;
  - `LogAndPostErrorTweet`.

  The one-line delegations `PostQuoteTweet`, `PostReply` and `PostReplyWithQuote`
  (user.go:58-68) are the `ApiCall` constructors of the same names. An API call is an
  action recorded with the account that makes it; the API's answer is a parameter.
- **`InfraTwitter`** (`infra_tweet.dfy`) is `ToTweet` of `pkg/infra/twitter/tweet.go`. It
  is a method that builds the media URL list in a loop, sets the reply fields only for a
  reply, and recurses on the quoted status. It is proved against the relation `Converts`.
- **`DomainTwitter`** (`domain_tweet.dfy`) is the `Tweet` record of
  `pkg/domain/twitter/tweet.go` and its accessors.
- Supporting modules:
  - `Strconv` is `strconv.FormatInt(i, 10)` with the parser that undoes it.
  - `GoStrings` is `strings.Contains`.
  - `GoTypes` holds `int64`, bytes and wrapped errors.
  - `Anaconda` is the shape of the anaconda client's tweet payload.
  - `Seqs` filters a trace.
  - `Wrappers` holds `Option`/`Result`/`Outcome`.

Behaviours of the code worth knowing, each stated by the model as the code has it:

- The current engine has no error-reporter flag and always makes both notification posts
  on a failure. Only the legacy engine checks `IsErrorReporter`, and it makes one
  `PostErrorTweet` call that carries both texts.
- In the current engine's quote fallback, the presenter's `ReplyWithQuote` receives the
  outer tweet's author, the outer tweet's id, the quoted tweet's id, the quoted tweet's
  author's screen name and the text. The legacy engine's `PostReplyWithQuote` receives the
  text, the quoted status, the outer tweet's id string and a list holding the outer
  author's screen name.
- The legacy loop returns on the first subscriber error, discarding what was collected;
  later subscribers are not processed.
- Both engines hand the retry count 3 and the interval 1 to the media download;
  `service.DownloadMediaFromTweet` and `twitter.DownloadEntityMediaFromTweet` are outside
  this model.

## Model

| member | source | states |
|---|---|---|
| Strconv.FormatInt | pkg/domain/twitter/tweet.go:19 | `FormatInt(i, 10)` writes an optional `-` and then digits without leading zeros (never `-0`), and parsing the numeral gives back `i` |
| Strconv.FormatParseInt | pkg/domain/twitter/tweet.go:18-20 | every canonical numeral in the int64 range is what `FormatInt` writes for its value, so formatting is a bijection onto those numerals |
| DomainTwitter.GetIDStr | pkg/domain/twitter/tweet.go:18-20 | the id string is the canonical base-10 numeral of the id and parses back to it, so distinct ids give distinct id strings |
| InfraTwitter.ConvertedIsReply | pkg/domain/twitter/tweet.go:22-24 | a converted tweet is a reply exactly when the payload is a reply to a status (non-zero status id) naming a non-zero user |
| InfraTwitter.ConvertedHasQuote | pkg/domain/twitter/tweet.go:26-28 | a converted tweet has a quote tweet exactly when the payload's quoted status id is non-zero |
| InfraTwitter.ToTweet | pkg/infra/twitter/tweet.go:8-33 | the result has one media URL per payload media item, in order, each the item's https URL (none for no media); id, user and text are copied; the three reply fields are copied when the in-reply-to status id is non-zero and stay zero/empty otherwise; the quote tweet is present exactly when the quoted status id is non-zero, and is then the conversion of the quoted status; it requires every followed quote to be present, as the source dereferences it |
| InfraTwitter.ConvertsUnique | pkg/infra/twitter/tweet.go:8-33 | the conversion relation determines the domain tweet completely: two conversions of one payload are equal |
| GoStrings.ContainsIffOccurs | pkg/application/usecase/usecase.go:49 | the keyword test holds exactly when the keyword occurs as a contiguous, case-sensitive substring of the text at some index |
| Twitter.NewUser | pkg/twitter/user.go:27-42 | the account keeps the four credentials, the id, the keyword, the error-reporter flag and the reply mode exactly as given |
| Twitter.PostByTweetType | pkg/twitter/user.go:44-56 | exactly one API call is made when the mode is one of the four values 1..4, and none otherwise (the zero value included), in which case the result is an "unknown TweetType" error carrying the mode; the call is made by the account and its answer is the result; Tweet mode is a plain post, Reply mode replies to the tweet's id string addressed to its author, QuoteTweet mode quotes the tweet, ReplyWithQuote mode quotes it and replies to it addressed to its author |
| Twitter.LogAndPostErrorTweet | pkg/twitter/user.go:70-75 | exactly one plain post of the text by the account, whatever the API answers; nothing is returned to the caller |
| Usecase.IsTargetTweet | pkg/application/usecase/usecase.go:45-57 | eligible exactly when there is media, the text contains the keyword and the author is not the bot; the reason is empty exactly when eligible, and otherwise names the first failing rule in the order media, keyword, author |
| Usecase.TweetToPredText | pkg/application/usecase/usecase.go:134-150 | the calls made are exactly `PipelineCalls` (download, then classify on downloaded media, then convert on a classification); the text, or the error with classifier and converter errors wrapped with their stage and a download error as it is, is that of `PredText` |
| Usecase.PipelineCallsTrace | pkg/application/usecase/usecase.go:134-150 | the pipeline downloads the tweet once with (3, 1), first; the classifier is called only on downloaded media and the converter only on a classification; there is no presenter call |
| Usecase.NotifyFailure | pkg/application/usecase/usecase.go:76-86 | exactly two posts by the bot, the timestamped error message first and the sorry message second, whatever the presenter answers to either |
| Usecase.ReplyAndNotify | pkg/application/usecase/usecase.go:60-130 | the calls are, in this order, the pipeline's calls on the eligible target, then (when a text came out) exactly one reply-with-quote whose arguments are the outer tweet's author, the outer tweet's id, the target's id, the target's author's screen name and the text, then (on any failure) the two notifications; the error is the text's error or the presenter's (first wrapped in "failed to post tweet" in the quote branch), wrapped in the branch's context, and there is none when nothing failed |
| Usecase.RepliedTrace | pkg/application/usecase/usecase.go:100-130 | from the exact order: one download of the target with (3, 1); the presenter calls are the reply (when a text came out) followed by the notifications; on a failure the two notifications are the last two calls; an error is returned exactly when something failed |
| Usecase.ReplyToUser | pkg/application/usecase/usecase.go:59-132 | an eligible tweet is replied to with its own id twice and its author's screen name; otherwise an ineligible tweet without a quote yields its reason, and one with an ineligible quote yields both reasons joined by ", and "; either way there are no calls and no error; an eligible quote is replied to as `ReplyAndNotify` states, calls in the same order; an error always comes with an empty reason |
| Sutaba.IsTargetTweet | pkg/sutaba/usecase.go:33-47 | the same three ordered rules and reasons, with the keyword and the id of the sending bot (never a subscriber's) |
| Sutaba.TweetToPredText | pkg/sutaba/usecase.go:126-142 | one download with (3, 1), first; prediction only on downloaded media, conversion only of a prediction; the text is the converter's answer; on failure the error is the download's as it is, the classifier's wrapped in "failed to predict", or the converter's wrapped in its context, according to the stage reached; no API call |
| Sutaba.PostPredictTweet | pkg/sutaba/usecase.go:114-124 | a pipeline failure is returned as is with nothing posted; otherwise the prefixed text is posted on the tweet by `PostByTweetType` and a posting error is wrapped in "failed to post tweet" |
| Sutaba.PostPredictTrace | pkg/sutaba/usecase.go:114-124 | posting the prediction downloads the tweet once and makes exactly the reply-mode call when there is a text, and sends no notification |
| Sutaba.PostQuoteReply | pkg/sutaba/usecase.go:92-102 | the effects are the pipeline's on the quoted status followed, when a text came out, by exactly one reply posted by the bot quoting the quoted status, replying to the outer tweet's id string and mentioning the outer author; success returns the tweet the API answered; a pipeline error is returned as it is and an API error wrapped in "failed to post tweet" |
| Sutaba.ReportFailure | pkg/sutaba/usecase.go:104-110 | the effects so far are kept and followed by the error notification (error text, sorry text, outer id string, outer author) only when the subscriber is an error reporter; the wrapped error is returned either way with no tweet and no reason |
| Sutaba.ReplyToUser | pkg/sutaba/usecase.go:66-112 | a tweet not addressed to the subscriber is ignored with that reason, no error and no effect; an error comes with no reason and no tweet; without an error a tweet is returned exactly when no reason is; an ignored tweet has no effect; an ineligible tweet yields its reason, or both reasons joined by ", and " when its quote is ineligible too |
| Sutaba.ReplyToUserNotices | pkg/sutaba/usecase.go:70-110 | the error notification is posted exactly when the answer is an error and the subscriber is an error reporter |
| Sutaba.ReplyToUserTrace | pkg/sutaba/usecase.go:70-81 | an eligible tweet's effects are exactly those of `postPredictTweet` in the bot's reply mode, followed by the notification on failure for an error reporter; one download, first; the answer succeeds exactly when `postPredictTweet` does, and returns its tweet or its error wrapped in the use-case context |
| Sutaba.ReplyToUserQuoteTrace | pkg/sutaba/usecase.go:87-111 | for an ineligible tweet with an eligible quoted status, the effects are exactly those of `PostQuoteReply` followed by the notification on failure for an error reporter; success returns the posted tweet; a failure returns the quote reply's error wrapped in the use-case context |
| Sutaba.ReplyToUsers | pkg/sutaba/usecase.go:49-64 | subscribers are processed in order; it succeeds exactly when every subscriber's answer does, and then the posted tweets and the ignore reasons are those of the answers, in subscriber order; on an error it returns empty lists and the error of the first failing subscriber, with the effects of that subscriber and those before it only |
| Sutaba.OutcomesPrefix | pkg/sutaba/usecase.go:52-56 | the answers to the first n subscribers are the first n answers, so stopping at the first error agrees with answering everyone |
| Sutaba.PartitionSize | pkg/sutaba/usecase.go:57-61 | every answer goes into exactly one of the two lists |
| Sutaba.ReplyToUsersPartition | pkg/sutaba/usecase.go:57-63 | on success the two lists together have one entry per subscriber, no posted entry is nil and no reason is empty |
| Sutaba.OutcomesConsistent | pkg/sutaba/usecase.go:57-61 | every subscriber's answer without an error carries a tweet exactly when it gives no reason |
| Sutaba.PostedNonNil | pkg/sutaba/usecase.go:57-58 | the posted list of a run without errors holds no nil tweet |
| Sutaba.ReasonsNonEmpty | pkg/sutaba/usecase.go:61 | the ignore-reason list holds no empty reason |

## Left out

- cmd/server.go (HTTP routing, request decoding, the classifier's HTTP call, environment
  handling) is I/O plumbing. `CreateCRCToken` is HMAC-SHA256 and base64 from the standard
  library.
- pkg/infra/twitter/repository.go and pkg/infra/twitter/util.go are thin wrappers over the
  Twitter client that hold credentials.
- The media download and its retry policy belong to routines that are not part of this
  model. The download is a parameter that returns bytes or an error. The model records only
  that it is called with the retry count 3 and the interval 1.
- The image classifier, the message converter (`GenerateResultMessage`, `PredToText`),
  the presenter and the Twitter API are parameters. Their answers are functions of the
  call, so two identical calls in one run get the same answer.
- `time.Now()` is the string parameter `now`. The error text is the message, a space and
  `now`, which stands for what `fmt.Sprintf(" %v", time.Now())` prints.
- Log output is not modelled. This covers `util.LogPrintlnInOneLine` and the `log.Println`
  calls of `LogAndPostErrorTweet`.
- Error wrapping: `xerrors.Errorf` with `%w` and with `%v` are both the constructor
  `Wrapped(context, inner)`. The model does not capture whether the wrapped error can be
  unwrapped.
- The anaconda client is represented by the credentials it is built from.
  `getMediaList` and `toUser` are not part of this model. The media list is the payload's
  media entities in order, and the user keeps its id and screen name.
- pkg/sutaba/usecase.go calls `PostErrorTweet` and a `PostReplyWithQuote` that takes a
  list of screen names, and neither matches pkg/twitter/user.go. Both are recorded as
  opaque API actions (`PostErrorTweet`, `PostReplyWithQuoteMentioning`) with the arguments
  the call site passes.
- Go references, nil slices and aliasing: tweets are values, a nil `*anaconda.Tweet` is
  `None`, and a nil slice is the empty sequence.
- DomainTwitter.IsReply and DomainTwitter.HasQuoteTweet are single-expression predicates.
  What they mean for a converted payload is stated by `ConvertedIsReply` and
  `ConvertedHasQuote`.
- `model.Tweet` and `model.TwitterUser` of pkg/domain/model are not part of this model.
  The application engine (`Usecase`) uses `DomainTwitter.Tweet` and
  `DomainTwitter.TwitterUser` in their place, with the fields the engine reads.
- The presenter's interface and implementation are not part of this model. A
  `ReplyWithQuote` call is recorded by its arguments only; whom the reply mentions or
  addresses is not stated.
