/** The Twitter API payload as the anaconda client library decodes it: the fields of
    `anaconda.Tweet` and `anaconda.User` the core reads. */
module Anaconda {
  import opened Wrappers
  import opened GoTypes

  datatype User = User(id: Int64, screenName: string)

  /** One entry of `Entities.Media`. */
  datatype EntityMedia = EntityMedia(mediaUrlHttps: string)

  /** `QuotedStatusId` is the API's id of the quoted tweet; `QuotedStatus` the decoded
      quoted tweet, nil when the payload does not carry it. */
  datatype Tweet = Tweet(
    id: Int64,
    idStr: string,
    user: User,
    text: string,
    media: seq<EntityMedia>,
    inReplyToStatusId: Int64,
    inReplyToUserId: Int64,
    inReplyToScreenName: string,
    quotedStatusId: Int64,
    quotedStatus: Option<Tweet>)
}
