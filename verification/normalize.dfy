/**
 * `extractTweetData` of both fetch scripts: from a raw item and its resolved
 * screen name and tweet id, build the canonical tweet record — the status URL,
 * the author fields, the text, the creation time, the photos with their alt
 * text, and for every video or GIF the URL of its best MP4 rendition.
 */
module Normalize {
  import opened Wrappers
  import opened JsStrings
  import opened Seqs
  import opened RawItems

  /** One photo: `{url: mediaUrlHttps, alt: extAltText}`. */
  datatype Image = Image(url: Option<string>, alt: Option<string>)

  /** The `user` object of a record. */
  datatype UserInfo = UserInfo(
    restId: Option<string>,
    screenName: string,
    name: Option<string>,
    profileImageUrl: Option<string>,
    description: Option<string>,
    followersCount: Option<int>,
    friendsCount: Option<int>,
    location: Option<string>)

  /** The record `extractTweetData` returns; `contentType` is set later by the classifier. */
  datatype TweetData = TweetData(
    tweetId: string,
    tweetUrl: string,
    user: UserInfo,
    fullText: string,
    createdAt: Option<string>,
    images: seq<Image>,
    videos: seq<string>,
    restId: string,
    contentType: string)

  /** The two scripts differ in one line: how `user.restId` is chosen. */
  datatype Script = Incremental | FullHistory

  const UrlPrefix := "https://x.com/"
  const StatusSegment := "/status/"
  const DefaultContentType := "unknown"

  // ---------------------------------------------------------------------------
  // The status URL

  function TweetUrl(screenName: string, tweetId: string): string {
    UrlPrefix + screenName + StatusSegment + tweetId
  }

  /** Reads a status URL back: the screen name runs up to the first '/' after the host. */
  function ParseTweetUrl(url: string): Option<(string, string)> {
    if !StartsWith(url, UrlPrefix) then None
    else
      var rest := url[|UrlPrefix|..];
      var k := FirstIndexOf(rest, "/");
      if k.None? then None
      else if StartsWith(rest[k.value..], StatusSegment) then Some((rest[..k.value], rest[k.value + |StatusSegment|..]))
      else None
  }

  /** The URL determines the screen name and the id again (screen names never contain '/'). */
  lemma TweetUrlRoundTrip(screenName: string, tweetId: string)
    requires '/' !in screenName
    ensures ParseTweetUrl(TweetUrl(screenName, tweetId)) == Some((screenName, tweetId))
  {
    var url := TweetUrl(screenName, tweetId);
    assert url[..|UrlPrefix|] == UrlPrefix;
    var rest := url[|UrlPrefix|..];
    assert rest == screenName + StatusSegment + tweetId;
    var n := |screenName|;
    assert rest[n..n + 1] == "/";
    assert OccursAt(rest, "/", n);
    var k := FirstIndexOf(rest, "/");
    forall j | 0 <= j < n
      ensures !OccursAt(rest, "/", j)
    {
      assert rest[j] == screenName[j];
      assert rest[j..j + 1] == [screenName[j]];
    }
    assert k.Some? && k.value == n;
    assert rest[n..][..|StatusSegment|] == StatusSegment;
    assert rest[..n] == screenName;
    assert rest[n + |StatusSegment|..] == tweetId;
  }

  // ---------------------------------------------------------------------------
  // Photos

  predicate IsPhoto(m: Media) {
    m.mediaType == Some("photo")
  }

  predicate IsVideo(m: Media) {
    m.mediaType == Some("video") || m.mediaType == Some("animated_gif")
  }

  function ToImage(m: Media): Image {
    Image(m.mediaUrlHttps, m.extAltText)
  }

  /** The photo attachments, in order, each as `{url, alt}`. */
  function Images(ms: seq<Media>): (r: seq<Image>)
    ensures |r| == |Filter(ms, IsPhoto)|
    ensures forall i :: 0 <= i < |r| ==> r[i] == ToImage(Filter(ms, IsPhoto)[i])
  {
    if ms == [] then []
    else
      var last := ms[|ms| - 1];
      Images(ms[..|ms| - 1]) + (if IsPhoto(last) then [ToImage(last)] else [])
  }

  // ---------------------------------------------------------------------------
  // Videos: the best MP4 variant

  predicate IsMp4(v: Variant) {
    v.contentType == Some("video/mp4")
  }

  /** `v.bitrate || 0`. */
  function Bitrate(v: Variant): int {
    v.bitrate.GetOr(0)
  }

  /**
   * The element `[0]` of the MP4 variants sorted by descending bitrate: the sort
   * is stable, so among the variants of highest bitrate the first one wins.
   */
  function BestMp4(vs: seq<Variant>): (k: Option<nat>)
    ensures k.None? <==> forall j :: 0 <= j < |vs| ==> !IsMp4(vs[j])
    ensures k.Some? ==> k.value < |vs| && IsMp4(vs[k.value])
    ensures k.Some? ==> forall j :: 0 <= j < |vs| && IsMp4(vs[j]) ==> Bitrate(vs[j]) <= Bitrate(vs[k.value])
    ensures k.Some? ==> forall j :: 0 <= j < k.value && IsMp4(vs[j]) ==> Bitrate(vs[j]) < Bitrate(vs[k.value])
  {
    if vs == [] then None
    else
      var rest := BestMp4(vs[1..]);
      assert forall j :: 1 <= j < |vs| ==> vs[j] == vs[1..][j - 1];
      if !IsMp4(vs[0]) then
        (if rest.None? then None else Some(rest.value + 1))
      else if rest.Some? && Bitrate(vs[0]) < Bitrate(vs[rest.value + 1]) then
        Some(rest.value + 1)
      else
        Some(0)
  }

  /**
   * Variant `j` is the one the sort puts first: an MP4 of the highest bitrate
   * among the MP4s, and no MP4 before it has that bitrate.
   */
  predicate IsBestMp4(vs: seq<Variant>, j: int) {
    && 0 <= j < |vs| && IsMp4(vs[j])
    && (forall i :: 0 <= i < |vs| && IsMp4(vs[i]) ==> Bitrate(vs[i]) <= Bitrate(vs[j]))
    && (forall i :: 0 <= i < j && IsMp4(vs[i]) ==> Bitrate(vs[i]) < Bitrate(vs[j]))
  }

  /** At most one variant is the best MP4. */
  lemma BestMp4Unique(vs: seq<Variant>, j: int, k: int)
    requires IsBestMp4(vs, j) && IsBestMp4(vs, k)
    ensures j == k
  {
    assert Bitrate(vs[j]) <= Bitrate(vs[k]) && Bitrate(vs[k]) <= Bitrate(vs[j]);
    assert !(j < k) && !(k < j);
  }

  /** `bestQuality?.url` for one video or GIF (`videoInfo.variants` defaults to `[]`). */
  function VideoUrl(m: Media): (r: Option<string>)
    ensures r.Some? ==> exists j :: 0 <= j < |m.variants.GetOr([])| && IsMp4(m.variants.GetOr([])[j]) && m.variants.GetOr([])[j].url == r
    ensures forall j :: IsBestMp4(m.variants.GetOr([]), j) ==> r == m.variants.GetOr([])[j].url
    ensures (forall j :: 0 <= j < |m.variants.GetOr([])| ==> !IsMp4(m.variants.GetOr([])[j])) ==> r.None?
  {
    var vs := m.variants.GetOr([]);
    var k := BestMp4(vs);
    if k.Some? then
      assert IsBestMp4(vs, k.value);
      assert forall j :: IsBestMp4(vs, j) ==> j == k.value by {
        forall j | IsBestMp4(vs, j) ensures j == k.value { BestMp4Unique(vs, j, k.value); }
      }
      vs[k.value].url
    else None
  }

  /** A video or GIF whose best MP4 has a non-empty URL: the attachments that end up in `videos`. */
  predicate HasVideoUrl(m: Media) {
    IsVideo(m) && Truthy(VideoUrl(m))
  }

  /** The videos and GIFs mapped to their best MP4 URL, dropping those without one (`.filter(Boolean)`). */
  function Videos(ms: seq<Media>): (r: seq<string>)
    ensures |r| <= |Filter(ms, IsVideo)|
    ensures forall u :: u in r <==> exists m :: m in ms && IsVideo(m) && VideoUrl(m) == Some(u) && u != ""
  {
    if ms == [] then []
    else
      var init := ms[..|ms| - 1];
      var last := ms[|ms| - 1];
      var extra := if HasVideoUrl(last) then [VideoUrl(last).value] else [];
      assert forall u :: u in extra <==> IsVideo(last) && VideoUrl(last) == Some(u) && u != "";
      assert forall m :: m in ms <==> m in init || m == last by {
        assert ms == init + [last];
      }
      Videos(init) + extra
  }

  /**
   * The video URLs are, in order, the best-MP4 URLs of the video and GIF
   * attachments that have a non-empty one: one entry per such attachment.
   */
  lemma {:induction false} VideosInOrder(ms: seq<Media>)
    ensures |Videos(ms)| == |Filter(ms, HasVideoUrl)|
    ensures forall i :: 0 <= i < |Videos(ms)| ==> Some(Videos(ms)[i]) == VideoUrl(Filter(ms, HasVideoUrl)[i])
  {
    if ms != [] {
      var init := ms[..|ms| - 1];
      var last := ms[|ms| - 1];
      VideosInOrder(init);
      var kept := Filter(init, HasVideoUrl);
      var extra := if HasVideoUrl(last) then [VideoUrl(last).value] else [];
      assert Videos(ms) == Videos(init) + extra;
      assert Filter(ms, HasVideoUrl) == kept + (if HasVideoUrl(last) then [last] else []);
    }
  }

  // ---------------------------------------------------------------------------
  // The record

  /** The author's rest id found on the item: `user.rest_id || raw.result.core.user_results.result.rest_id || ''`. */
  function ExtractedRestId(t: RawItem): string {
    OrElse(Or(t.userRestId, t.rawCoreUserRestId), "")
  }

  function ExtractTweetData(t: RawItem, screenName: string, tweetId: string, script: Script): (r: TweetData)
    ensures '/' !in screenName ==> ParseTweetUrl(r.tweetUrl) == Some((screenName, tweetId))
    ensures r.images == Images(MediaItems(t)) && r.videos == Videos(MediaItems(t))
    ensures t.rawMedia.Unset? ==> r.images == [] && r.videos == []
    ensures script == Incremental ==> r.user.restId == t.runtimeRestId
    ensures script == FullHistory && Truthy(t.runtimeRestId) ==> r.user.restId == t.runtimeRestId
    ensures script == FullHistory && !Truthy(t.runtimeRestId) ==> r.user.restId == Some(ExtractedRestId(t))
    ensures r.contentType == DefaultContentType
  {
    var restId := ExtractedRestId(t);
    var user := UserInfo(
      if script == Incremental then t.runtimeRestId else Some(OrElse(t.runtimeRestId, restId)),
      screenName,
      t.user.name,
      t.user.profileImageUrlHttps,
      t.user.description,
      t.user.followersCount,
      t.user.friendsCount,
      t.user.location);
    var ms := MediaItems(t);
    assert '/' !in screenName ==> ParseTweetUrl(TweetUrl(screenName, tweetId)) == Some((screenName, tweetId)) by {
      if '/' !in screenName { TweetUrlRoundTrip(screenName, tweetId); }
    }
    TweetData(tweetId, TweetUrl(screenName, tweetId), user, FullText(t), CreatedAt(t),
              Images(ms), Videos(ms), restId, DefaultContentType)
  }

  // ---------------------------------------------------------------------------
  // The two raw shapes

  /** One logical tweet, independent of the shape that carries it. */
  datatype LogicalTweet = LogicalTweet(
    id: string, text: string, createdAt: string, media: seq<Media>,
    user: UserLegacy, userRestId: Option<string>)

  /** The item in the "direct" shape: everything under `raw.result`. */
  function Direct(l: LogicalTweet): RawItem {
    RawItem(false, Some(l.id), Some(l.text), Some(l.createdAt), None, MediaList(l.media), None,
            None, None, None, None, None, l.userRestId, l.user, None)
  }

  /** The item in the "legacy-wrapped" shape: everything under `tweet`. */
  function LegacyWrapped(l: LogicalTweet): RawItem {
    RawItem(false, None, None, None, None, Unset, None,
            Some(l.id), Some(l.id), Some(l.text), Some(l.createdAt), Some(l.media), l.userRestId, l.user, None)
  }

  /**
   * Both shapes resolve the same id, text and creation time and give the same
   * record, except that the legacy-wrapped shape loses all its media: without a
   * `null` at the direct path the media fallback path is not read.
   */
  lemma DualSchema(l: LogicalTweet, screenName: string, script: Script)
    requires l.id != "" && l.createdAt != ""
    ensures TweetId(Direct(l)) == TweetId(LegacyWrapped(l))
    ensures FullText(Direct(l)) == FullText(LegacyWrapped(l))
    ensures CreatedAt(Direct(l)) == CreatedAt(LegacyWrapped(l))
    ensures ExtractTweetData(LegacyWrapped(l), screenName, l.id, script)
         == ExtractTweetData(Direct(l), screenName, l.id, script).(images := [], videos := [])
  {
  }

  /** A `null` at the direct media path lets the legacy-wrapped media through: the record is the direct shape's. */
  lemma NullDirectMediaFallsBack(l: LogicalTweet, screenName: string, script: Script)
    requires l.id != "" && l.createdAt != ""
    ensures ExtractTweetData(LegacyWrapped(l).(rawMedia := NullMedia), screenName, l.id, script)
         == ExtractTweetData(Direct(l), screenName, l.id, script)
  {
  }
}
