/** Conversion of the API payload into the domain `Tweet` (pkg/infra/twitter/tweet.go). */
module InfraTwitter {
  import opened Wrappers
  import Anaconda
  import opened DomainTwitter

  /** `toUser` (not part of this model) carries over the id and the screen name. */
  function ToUser(u: Anaconda.User): (r: TwitterUser)
  {
    TwitterUser(u.id, u.screenName)
  }

  /** The payload can be converted without dereferencing a nil `QuotedStatus`: every
      quote the conversion follows (a non-zero `QuotedStatusId`) is present. */
  predicate Convertible(a: Anaconda.Tweet)
    decreases a
  {
    a.quotedStatusId != 0 ==> a.quotedStatus.Some? && Convertible(a.quotedStatus.value)
  }

  /** `t` is what converting `a` yields, field by field and down the quote chain. */
  ghost predicate Converts(a: Anaconda.Tweet, t: Tweet)
    decreases a
  {
    && |t.mediaURLs| == |a.media|
    && (forall i :: 0 <= i < |a.media| ==> t.mediaURLs[i] == a.media[i].mediaUrlHttps)
    && t.id == a.id
    && t.user == ToUser(a.user)
    && t.text == a.text
    && (if a.inReplyToStatusId != 0 then
          && t.inReplyToUserId == a.inReplyToUserId
          && t.inReplyToScreenName == a.inReplyToScreenName
          && t.inReplyToStatusId == a.inReplyToStatusId
        else
          t.inReplyToUserId == 0 && t.inReplyToScreenName == "" && t.inReplyToStatusId == 0)
    && (t.quoteTweet.Some? <==> a.quotedStatusId != 0)
    && (a.quotedStatusId != 0 ==>
          a.quotedStatus.Some? && t.quoteTweet.Some? && Converts(a.quotedStatus.value, t.quoteTweet.value))
  }

  /** `ToTweet`: one media URL per payload media item, in order; id, user and text
      copied; the reply fields copied only for a reply; the quote converted recursively. */
  method ToTweet(a: Anaconda.Tweet) returns (t: Tweet)
    requires Convertible(a)
    ensures Converts(a, t)
    decreases a
  {
    var mediaList := a.media;
    var mediaURLs: seq<string> := [];
    for i := 0 to |mediaList|
      invariant |mediaURLs| == i
      invariant forall k :: 0 <= k < i ==> mediaURLs[k] == mediaList[k].mediaUrlHttps
    {
      mediaURLs := mediaURLs + [mediaList[i].mediaUrlHttps];
    }

    t := Tweet(a.id, ToUser(a.user), a.text, None, 0, 0, "", mediaURLs);

    if a.inReplyToStatusId != 0 {
      t := t.(inReplyToUserId := a.inReplyToUserId,
              inReplyToScreenName := a.inReplyToScreenName,
              inReplyToStatusId := a.inReplyToStatusId);
    }

    if a.quotedStatusId != 0 {
      var quote := ToTweet(a.quotedStatus.value);
      t := t.(quoteTweet := Some(quote));
    }
  }

  /** The conversion is a function of the payload: two results of converting the same
      payload are the same tweet. */
  lemma {:induction false} ConvertsUnique(a: Anaconda.Tweet, t1: Tweet, t2: Tweet)
    requires Converts(a, t1) && Converts(a, t2)
    ensures t1 == t2
    decreases a
  {
    assert t1.mediaURLs == t2.mediaURLs;
    if a.quotedStatusId != 0 {
      ConvertsUnique(a.quotedStatus.value, t1.quoteTweet.value, t2.quoteTweet.value);
    }
  }

  /** A converted tweet counts as a reply exactly when the payload is a reply to a
      status and names a non-zero user. */
  lemma ConvertedIsReply(a: Anaconda.Tweet, t: Tweet)
    requires Converts(a, t)
    ensures IsReply(t) <==> a.inReplyToStatusId != 0 && a.inReplyToUserId != 0
  {
  }

  /** A converted tweet has a quote tweet exactly when the payload's quoted status id is
      non-zero. */
  lemma ConvertedHasQuote(a: Anaconda.Tweet, t: Tweet)
    requires Converts(a, t)
    ensures HasQuoteTweet(t) <==> a.quotedStatusId != 0
  {
  }
}
