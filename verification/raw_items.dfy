/**
 * A raw timeline item as the timeline API returns it. The scripts read it only
 * through lodash `get` with fixed property paths; the item is modelled as one
 * optional field per path read, `None` standing for a path that does not
 * resolve. An item of the "direct" shape fills the `raw.result...` paths, one
 * of the "legacy-wrapped" shape the `tweet...` paths.
 */
module RawItems {
  import opened Wrappers
  import opened JsStrings

  /** One entry of `videoInfo.variants`. */
  datatype Variant = Variant(
    contentType: Option<string>,  // contentType
    bitrate: Option<int>,         // bitrate
    url: Option<string>)          // url

  /** One entry of `extendedEntities.media`. */
  datatype Media = Media(
    mediaType: Option<string>,        // type
    mediaUrlHttps: Option<string>,    // mediaUrlHttps
    extAltText: Option<string>,       // extAltText
    variants: Option<seq<Variant>>)   // videoInfo.variants

  /**
   * What `get(item, path, [])` sees at the direct media path: nothing (the
   * default `[]` is returned), a JSON `null` (returned as it is, and falsy), or
   * the media array.
   */
  datatype MediaPath = Unset | NullMedia | MediaList(items: seq<Media>)

  /** The `user.legacy` profile fields. */
  datatype UserLegacy = UserLegacy(
    screenName: Option<string>,
    name: Option<string>,
    profileImageUrlHttps: Option<string>,
    description: Option<string>,
    followersCount: Option<int>,
    friendsCount: Option<int>,
    location: Option<string>)

  datatype RawItem = RawItem(
    promotedMetadata: bool,               // `promotedMetadata` is truthy
    rawIdStr: Option<string>,             // raw.result.legacy.idStr
    rawFullText: Option<string>,          // raw.result.legacy.fullText
    rawCreatedAt: Option<string>,         // raw.result.legacy.createdAt
    rawIsRetweet: Option<bool>,           // raw.result.legacy.isRetweet
    rawMedia: MediaPath,                  // raw.result.legacy.extendedEntities.media
    rawCoreUserRestId: Option<string>,    // raw.result.core.user_results.result.rest_id
    tweetRestId: Option<string>,          // tweet.rest_id
    tweetIdStr: Option<string>,           // tweet.legacy.id_str
    tweetFullText: Option<string>,        // tweet.legacy.fullText
    tweetCreatedAt: Option<string>,       // tweet.legacy.createdAt
    tweetMedia: Option<seq<Media>>,       // tweet.legacy.extendedEntities.media
    userRestId: Option<string>,           // user.rest_id
    user: UserLegacy,                     // user.legacy
    runtimeRestId: Option<string>)        // runtime_rest_id, assigned by the caller before processing

  /** The tweet id: `raw.result.legacy.idStr || tweet.rest_id || tweet.legacy.id_str`. */
  function TweetId(t: RawItem): (r: Option<string>)
    ensures Truthy(r) <==> Truthy(t.rawIdStr) || Truthy(t.tweetRestId) || Truthy(t.tweetIdStr)
    ensures Truthy(t.rawIdStr) ==> r == t.rawIdStr
    ensures !Truthy(t.rawIdStr) && Truthy(t.tweetRestId) ==> r == t.tweetRestId
    ensures !Truthy(t.rawIdStr) && !Truthy(t.tweetRestId) ==> r == t.tweetIdStr
  {
    Or(Or(t.rawIdStr, t.tweetRestId), t.tweetIdStr)
  }

  /** The text as the filters and the normaliser read it: the first non-empty of the two paths, else ''. */
  function FullText(t: RawItem): (r: string)
    ensures r == "" <==> !Truthy(t.rawFullText) && !Truthy(t.tweetFullText)
    ensures Truthy(t.rawFullText) ==> r == t.rawFullText.value
    ensures !Truthy(t.rawFullText) && Truthy(t.tweetFullText) ==> r == t.tweetFullText.value
  {
    OrElse(Or(t.rawFullText, t.tweetFullText), "")
  }

  /** The creation time: `raw.result.legacy.createdAt || tweet.legacy.createdAt`. */
  function CreatedAt(t: RawItem): (r: Option<string>)
    ensures Truthy(r) <==> Truthy(t.rawCreatedAt) || Truthy(t.tweetCreatedAt)
    ensures Truthy(t.rawCreatedAt) ==> r == t.rawCreatedAt
    ensures !Truthy(t.rawCreatedAt) ==> r == t.tweetCreatedAt
  {
    Or(t.rawCreatedAt, t.tweetCreatedAt)
  }

  /**
   * The media list: `get(raw...media, []) || get(tweet...media, [])`. Arrays,
   * the empty default `[]` included, are truthy, so the legacy-wrapped path is
   * read only when the direct path holds `null`.
   */
  function MediaItems(t: RawItem): (r: seq<Media>)
    ensures t.rawMedia.MediaList? ==> r == t.rawMedia.items
    ensures t.rawMedia.Unset? ==> r == []
    ensures t.rawMedia.NullMedia? ==> r == t.tweetMedia.GetOr([])
    ensures r != [] ==> t.rawMedia.MediaList? || (t.rawMedia.NullMedia? && t.tweetMedia.Some?)
  {
    match t.rawMedia
    case Unset => []
    case NullMedia => t.tweetMedia.GetOr([])
    case MediaList(ms) => ms
  }

  /** The body of a timeline API response (`resp.data`): the items and the bottom cursor. */
  datatype Timeline = Timeline(
    data: Option<seq<RawItem>>,      // data
    cursorBottom: Option<string>)    // cursor.bottom.value

  /** What one `getUserTweets` call on the timeline API does: throw, or respond with an optional body. */
  datatype ApiReply = ApiThrew | ApiResponded(body: Option<Timeline>)
}
