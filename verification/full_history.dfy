/**
 * The full-history sync of one account: a do-while over timeline pages
 * (at most two), each page filtered (promoted, reposts), its tweets turned
 * into records classified by their media, records already stored skipped, and
 * after every page the whole accumulated list handed to the store's insert.
 */
module FullHistoryFetch {
  import opened Wrappers
  import opened JsStrings
  import opened Seqs
  import opened RawItems
  import opened Filters
  import opened Normalize

  /** The page limit of `fetchAllUserTweets`. */
  const MaxPages := 2

  const PostWithMedia := "post_with_media"
  const PostWithVideo := "post_with_video"
  const Post := "post"

  /** A timeline call: the account id and the `cursor` parameter, present only when truthy. */
  datatype Request = Request(userId: string, cursor: Option<string>)

  /** The outside world of this script. */
  datatype World = World(
    timeline: Request -> ApiReply,      // client.getTweetApi().getUserTweets(params)
    lookupFails: string -> bool,        // checkTweetExists: query error other than "no rows", or a throw
    saveFails: seq<Row> -> bool)        // saveTweetsToSupabase: insert error

  /** A row handed to the insert of `saveTweetsToSupabase`. */
  datatype Row = Row(
    tweetId: string, userId: Option<string>, tweetUrl: string, fullText: string, createdAt: Option<string>,
    images: seq<Image>, videos: seq<string>, contentType: string)

  /** What `getUserTweets` returns. */
  datatype Page = Page(tweets: seq<RawItem>, nextCursor: Option<string>)

  /** `getUserTweets`: the items and the bottom cursor; no tweets and no cursor when the call throws or the page is empty. */
  function GetUserTweets(reply: ApiReply): (p: Page)
    ensures reply.ApiThrew? || reply == ApiResponded(None) ==> p == Page([], None)
    ensures p.tweets == [] ==> p.nextCursor.None?
    ensures p.tweets != [] ==> reply.ApiResponded? && reply.body.Some? && reply.body.value.data == Some(p.tweets)
                               && p.nextCursor == reply.body.value.cursorBottom
  {
    match reply
    case ApiThrew => Page([], None)
    case ApiResponded(body) =>
      if body.None? || body.value.data.None? || body.value.data.value == [] then Page([], None)
      else Page(body.value.data.value, body.value.cursorBottom)
  }

  /** The cursor parameter of the next call: only a truthy cursor is sent. */
  function CursorParam(cursor: Option<string>): (r: Option<string>)
    ensures r.Some? <==> Truthy(cursor)
    ensures r.Some? ==> r == cursor
  {
    if Truthy(cursor) then cursor else None
  }

  // ---------------------------------------------------------------------------
  // Records

  /** The content type given by the media: photos first, then videos, else a plain post. */
  function MediaRuleType(images: seq<Image>, videos: seq<string>): (r: string)
    ensures r == PostWithMedia <==> |images| > 0
    ensures r == PostWithVideo <==> |images| == 0 && |videos| > 0
    ensures r == Post <==> |images| == 0 && |videos| == 0
  {
    if |images| > 0 then PostWithMedia
    else if |videos| > 0 then PostWithVideo
    else Post
  }

  /** `processTweet`: `None` (null) without a screen name or an id, else the record classified by its media. */
  function ProcessTweet(t: RawItem): (r: Option<TweetData>)
    ensures r.None? <==> !Truthy(t.user.screenName) || !Truthy(TweetId(t))
    ensures r.Some? ==> r.value.tweetId == TweetId(t).value && r.value.user.screenName == t.user.screenName.value
    ensures r.Some? ==> r.value.contentType == MediaRuleType(r.value.images, r.value.videos)
    ensures r.Some? ==> r.value.images == Images(MediaItems(t)) && r.value.videos == Videos(MediaItems(t))
    ensures r.Some? && Truthy(t.runtimeRestId) ==> r.value.user.restId == t.runtimeRestId
  {
    var screenName := t.user.screenName;
    if !Truthy(screenName) then None
    else
      var tweetId := TweetId(t);
      if !Truthy(tweetId) then None
      else
        var data := ExtractTweetData(t, screenName.value, tweetId.value, FullHistory);
        Some(data.(contentType := MediaRuleType(data.images, data.videos)))
  }

  /** The row of a record: `user_id` is `user.restId`, `content_type` defaults to 'unknown'. */
  function RowOf(d: TweetData): (r: Row)
    ensures r.tweetId == d.tweetId && r.userId == d.user.restId
    ensures r.images == d.images && r.videos == d.videos
    ensures r.contentType != ""
    ensures d.contentType == "" ==> r.contentType == DefaultContentType
  {
    Row(d.tweetId, d.user.restId, d.tweetUrl, d.fullText, d.createdAt, d.images, d.videos,
        if d.contentType != "" then d.contentType else DefaultContentType)
  }

  function Rows(ds: seq<TweetData>): (r: seq<Row>)
    ensures |r| == |ds| && forall i :: 0 <= i < |ds| ==> r[i] == RowOf(ds[i])
  {
    seq(|ds|, i requires 0 <= i < |ds| => RowOf(ds[i]))
  }

  /** A record's row keeps the id of the account being synced. */
  lemma RowsCarryAccount(t: RawItem, userId: string)
    requires userId != "" && ProcessTweet(t.(runtimeRestId := Some(userId))).Some?
    ensures RowOf(ProcessTweet(t.(runtimeRestId := Some(userId))).value).userId == Some(userId)
  {
  }

  lemma RowsOfPrefix(a: seq<TweetData>, b: seq<TweetData>)
    requires a <= b
    ensures Rows(a) <= Rows(b)
  {
    assert Rows(a) == Rows(b)[..|a|];
  }

  function RowIdSet(rows: seq<Row>): set<string> {
    set i | 0 <= i < |rows| :: rows[i].tweetId
  }

  /** `checkTweetExists` of this script: a failed query answers "absent" and counts nothing. */
  predicate Exists(ids: set<string>, w: World, id: string) {
    !w.lookupFails(id) && id in ids
  }

  // ---------------------------------------------------------------------------
  // The pagination driver

  /** Why the loop left early: an empty page (`break`), or the insert threw (the whole fetch rethrows). */
  datatype Halt = Running | EmptyPage | SaveThrew

  /**
   * The driver's state: the locals `nextCursor`, `pageCount`, `allTweets`; the
   * store's ids; the calls made; the batches inserted; `stats.tweetsCollected`.
   */
  datatype Driver = Driver(
    cursor: Option<string>, pageCount: nat, all: seq<TweetData>,
    ids: set<string>, requests: seq<Request>, saves: seq<seq<Row>>, collected: nat, halt: Halt)

  function Start(ids: set<string>, requests: seq<Request>, saves: seq<seq<Row>>, collected: nat): Driver {
    Driver(None, 0, [], ids, requests, saves, collected, Running)
  }

  /** One processed item of a page: appended and counted unless null or already stored. */
  function Collect(d: Driver, w: World, data: Option<TweetData>): Driver {
    if data.None? || Exists(d.ids, w, data.value.tweetId) then d
    else d.(all := d.all + [data.value], collected := d.collected + 1)
  }

  /** The inner `for` over a filtered page; each item is tagged with the account id first. */
  function CollectPage(d: Driver, w: World, userId: string, ts: seq<RawItem>): (r: Driver)
    ensures r == d.(all := r.all, collected := r.collected)
    ensures d.all <= r.all && r.collected == d.collected + (|r.all| - |d.all|)
  {
    if ts == [] then d
    else Collect(CollectPage(d, w, userId, ts[..|ts| - 1]), w, ProcessTweet(ts[|ts| - 1].(runtimeRestId := Some(userId))))
  }

  /** One pass of the do-while body. */
  function Step(d: Driver, w: World, userId: string): (r: Driver)
    ensures r.pageCount == d.pageCount + 1
    ensures r.requests == d.requests + [Request(userId, CursorParam(d.cursor))]
    ensures d.all <= r.all && r.collected == d.collected + (|r.all| - |d.all|)
  {
    var request := Request(userId, CursorParam(d.cursor));
    var page := GetUserTweets(w.timeline(request));
    var d1 := d.(pageCount := d.pageCount + 1, requests := d.requests + [request], cursor := page.nextCursor);
    if page.tweets == [] then d1.(halt := EmptyPage)
    else SaveCollected(CollectPage(d1, w, userId, FullHistoryFilter(page.tweets)), w)
  }

  /** The end of a pass that read tweets: every record collected so far is inserted, when there is any. */
  function SaveCollected(d: Driver, w: World): (r: Driver)
    ensures r.all == d.all && r.collected == d.collected && r.cursor == d.cursor
  {
    if d.all == [] then d
    else if w.saveFails(Rows(d.all)) then d.(halt := SaveThrew)
    else d.(ids := d.ids + RowIdSet(Rows(d.all)), saves := d.saves + [Rows(d.all)])
  }

  /** The loop condition `nextCursor && pageCount < maxPages`, for a pass that did not leave early. */
  predicate Continues(d: Driver) {
    d.halt == Running && Truthy(d.cursor) && d.pageCount < MaxPages
  }

  /** The do-while loop from a state. */
  function Run(d: Driver, w: World, userId: string): (r: Driver)
    decreases MaxPages - d.pageCount
  {
    var d1 := Step(d, w, userId);
    if Continues(d1) then Run(d1, w, userId) else d1
  }

  /** At least one and at most `MaxPages` calls are made, one per pass. */
  lemma {:induction false} RunIsBounded(d: Driver, w: World, userId: string)
    requires d.pageCount < MaxPages
    ensures var r := Run(d, w, userId);
            d.pageCount < r.pageCount <= MaxPages && |r.requests| - |d.requests| == r.pageCount - d.pageCount
    decreases MaxPages - d.pageCount
  {
    var d1 := Step(d, w, userId);
    if Continues(d1) {
      RunIsBounded(d1, w, userId);
    }
  }

  /** A whole fetch makes one or two timeline calls. */
  lemma AtMostTwoCalls(ids: set<string>, w: World, userId: string)
    ensures 1 <= |Run(Start(ids, [], [], 0), w, userId).requests| <= MaxPages
  {
    RunIsBounded(Start(ids, [], [], 0), w, userId);
  }

  /** An empty first page ends the fetch after one call, with nothing collected or saved. */
  lemma EmptyFirstPageStops(ids: set<string>, w: World, userId: string)
    requires GetUserTweets(w.timeline(Request(userId, None))).tweets == []
    ensures var r := Run(Start(ids, [], [], 0), w, userId);
            r.requests == [Request(userId, None)] && r.all == [] && r.saves == [] && r.halt == EmptyPage
  {
  }

  /** A first page without a cursor ends the fetch after one call. */
  lemma MissingCursorStops(ids: set<string>, w: World, userId: string)
    requires !Truthy(GetUserTweets(w.timeline(Request(userId, None))).nextCursor)
    ensures Run(Start(ids, [], [], 0), w, userId).requests == [Request(userId, None)]
  {
  }

  /** A first page with cursor "abc" and a second page without a cursor: exactly two calls, the second with "abc". */
  lemma CursorAbcThenNone(ids: set<string>, w: World, userId: string)
    requires GetUserTweets(w.timeline(Request(userId, None))) .tweets != []
    requires GetUserTweets(w.timeline(Request(userId, None))).nextCursor == Some("abc")
    requires GetUserTweets(w.timeline(Request(userId, Some("abc")))).nextCursor.None?
    requires forall rows :: !w.saveFails(rows)
    ensures Run(Start(ids, [], [], 0), w, userId).requests == [Request(userId, None), Request(userId, Some("abc"))]
  {
    var d1 := Step(Start(ids, [], [], 0), w, userId);
    assert d1.halt == Running;
    assert Continues(d1);
  }

  /**
   * Every batch handed to the insert is a prefix of the next one and of the
   * final list: after each page the records of earlier pages are inserted
   * again.
   */
  predicate SavesArePrefixes(d: Driver) {
    PrefixChain(d.saves, Rows(d.all))
  }

  /** Each batch is a prefix of every later one and of `last`. */
  predicate PrefixChain(saves: seq<seq<Row>>, last: seq<Row>) {
    && (forall i, j :: 0 <= i < j < |saves| ==> saves[i] <= saves[j])
    && (forall i :: 0 <= i < |saves| ==> saves[i] <= last)
  }

  lemma ChainGrows(saves: seq<seq<Row>>, last: seq<Row>, longer: seq<Row>)
    requires PrefixChain(saves, last) && last <= longer
    ensures PrefixChain(saves, longer)
  {
  }

  lemma ChainAppends(saves: seq<seq<Row>>, last: seq<Row>)
    requires PrefixChain(saves, last)
    ensures PrefixChain(saves + [last], last)
  {
  }

  lemma StepKeepsPrefixes(d: Driver, w: World, userId: string)
    requires SavesArePrefixes(d)
    ensures SavesArePrefixes(Step(d, w, userId))
  {
    var request := Request(userId, CursorParam(d.cursor));
    var page := GetUserTweets(w.timeline(request));
    var d1 := d.(pageCount := d.pageCount + 1, requests := d.requests + [request], cursor := page.nextCursor);
    if page.tweets == [] {
      assert Step(d, w, userId) == d1.(halt := EmptyPage);
    } else {
      var d2 := CollectPage(d1, w, userId, FullHistoryFilter(page.tweets));
      assert Step(d, w, userId) == SaveCollected(d2, w);
      RowsOfPrefix(d1.all, d2.all);
      ChainGrows(d.saves, Rows(d.all), Rows(d2.all));
      SaveKeepsPrefixes(d2, w);
    }
  }

  lemma SaveKeepsPrefixes(d: Driver, w: World)
    requires SavesArePrefixes(d)
    ensures SavesArePrefixes(SaveCollected(d, w))
  {
    ChainAppends(d.saves, Rows(d.all));
  }

  lemma {:induction false} RunKeepsPrefixes(d: Driver, w: World, userId: string)
    requires SavesArePrefixes(d)
    ensures SavesArePrefixes(Run(d, w, userId))
    decreases MaxPages - d.pageCount
  {
    StepKeepsPrefixes(d, w, userId);
    var d1 := Step(d, w, userId);
    if Continues(d1) {
      RunKeepsPrefixes(d1, w, userId);
    }
  }

  /**
   * Over a whole fetch started with an empty counter: `tweetsCollected` is the
   * number of records collected, and every batch inserted repeats all earlier
   * ones.
   */
  lemma FetchCountsAndResaves(ids: set<string>, w: World, userId: string)
    ensures var r := Run(Start(ids, [], [], 0), w, userId);
            r.collected == |r.all| && SavesArePrefixes(r)
  {
    RunKeepsPrefixes(Start(ids, [], [], 0), w, userId);
    RunCollects(Start(ids, [], [], 0), w, userId);
  }

  lemma {:induction false} RunCollects(d: Driver, w: World, userId: string)
    ensures var r := Run(d, w, userId);
            d.all <= r.all && r.collected == d.collected + (|r.all| - |d.all|)
    decreases MaxPages - d.pageCount
  {
    var d1 := Step(d, w, userId);
    if Continues(d1) {
      RunCollects(d1, w, userId);
    }
  }

  // ---------------------------------------------------------------------------
  // The fetch, in place

  class FullHistorySync {
    var ids: set<string>
    var requests: seq<Request>
    var saves: seq<seq<Row>>
    var tweetsCollected: nat

    constructor (stored: set<string>)
      ensures ids == stored && requests == [] && saves == [] && tweetsCollected == 0
    {
      ids, requests, saves, tweetsCollected := stored, [], [], 0;
    }

    method CheckTweetExists(w: World, tweetId: string) returns (found: bool)
      ensures found == Exists(ids, w, tweetId)
      ensures found ==> tweetId in ids
    {
      if w.lookupFails(tweetId) {
        return false;
      }
      found := tweetId in ids;
    }

    /** `saveTweetsToSupabase`: one insert of every record's row; `threw` when the insert fails. */
    method SaveTweetsToSupabase(w: World, tweets: seq<TweetData>) returns (threw: bool)
      modifies this
      ensures threw == w.saveFails(Rows(tweets))
      ensures threw ==> ids == old(ids) && saves == old(saves)
      ensures !threw ==> ids == old(ids) + RowIdSet(Rows(tweets)) && saves == old(saves) + [Rows(tweets)]
      ensures requests == old(requests) && tweetsCollected == old(tweetsCollected)
    {
      var insertTweets := Rows(tweets);
      if w.saveFails(insertTweets) {
        return true;
      }
      ids := ids + RowIdSet(insertTweets);
      saves := saves + [insertTweets];
      threw := false;
    }

    /** One turn of the inner `for`, after `processTweet`: append and count the record unless it is null or stored. */
    method CollectTweet(w: World, tweetData: Option<TweetData>, allTweets: seq<TweetData>, ghost cursor: Option<string>, ghost pageCount: nat)
      returns (newAllTweets: seq<TweetData>)
      modifies this
      ensures Collect(Driver(cursor, pageCount, allTweets, old(ids), old(requests), old(saves), old(tweetsCollected), Running),
                      w, tweetData)
           == Driver(cursor, pageCount, newAllTweets, ids, requests, saves, tweetsCollected, Running)
    {
      newAllTweets := allTweets;
      if tweetData.Some? {
        var found := CheckTweetExists(w, tweetData.value.tweetId);
        if !found {
          newAllTweets := newAllTweets + [tweetData.value];
          tweetsCollected := tweetsCollected + 1;
        }
      }
    }

    /** The inner `for` of a pass: process each filtered item, skip stored ones, append and count the rest. */
    method CollectTweets(w: World, userId: string, filteredTweets: seq<RawItem>, allTweets: seq<TweetData>,
                         ghost cursor: Option<string>, ghost pageCount: nat)
      returns (newAllTweets: seq<TweetData>)
      modifies this
      ensures CollectPage(Driver(cursor, pageCount, allTweets, old(ids), old(requests), old(saves), old(tweetsCollected), Running),
                          w, userId, filteredTweets)
           == Driver(cursor, pageCount, newAllTweets, ids, requests, saves, tweetsCollected, Running)
    {
      ghost var collecting := Driver(cursor, pageCount, allTweets, ids, requests, saves, tweetsCollected, Running);
      newAllTweets := allTweets;
      var j := 0;
      while j < |filteredTweets|
        invariant 0 <= j <= |filteredTweets|
        invariant ids == old(ids) && requests == old(requests) && saves == old(saves)
        invariant Driver(cursor, pageCount, newAllTweets, ids, requests, saves, tweetsCollected, Running)
               == CollectPage(collecting, w, userId, filteredTweets[..j])
      {
        assert filteredTweets[..j + 1][..j] == filteredTweets[..j];
        var tweet := filteredTweets[j].(runtimeRestId := Some(userId));
        var tweetData := ProcessTweet(tweet);
        newAllTweets := CollectTweet(w, tweetData, newAllTweets, cursor, pageCount);
        j := j + 1;
      }
      assert filteredTweets[..|filteredTweets|] == filteredTweets;
    }

    /** The end of a pass: the collected records are inserted when there is any; a failed insert ends the fetch. */
    method SaveAll(w: World, allTweets: seq<TweetData>, ghost cursor: Option<string>, ghost pageCount: nat) returns (halt: Halt)
      modifies this
      ensures SaveCollected(Driver(cursor, pageCount, allTweets, old(ids), old(requests), old(saves), old(tweetsCollected), Running), w)
           == Driver(cursor, pageCount, allTweets, ids, requests, saves, tweetsCollected, halt)
    {
      halt := Running;
      if allTweets != [] {
        var threw := SaveTweetsToSupabase(w, allTweets);
        if threw {
          halt := SaveThrew;
        }
      }
    }

    /** One pass of the do-while body, from the loop's locals to their new values and the reason to leave, if any. */
    method FetchPage(w: World, userId: string, cursor: Option<string>, pageCount: nat, allTweets: seq<TweetData>)
      returns (nextCursor: Option<string>, newPageCount: nat, newAllTweets: seq<TweetData>, halt: Halt)
      modifies this
      ensures Step(Driver(cursor, pageCount, allTweets, old(ids), old(requests), old(saves), old(tweetsCollected), Running), w, userId)
           == Driver(nextCursor, newPageCount, newAllTweets, ids, requests, saves, tweetsCollected, halt)
    {
      var request := Request(userId, CursorParam(cursor));
      newPageCount := pageCount + 1;
      requests := requests + [request];
      var page := GetUserTweets(w.timeline(request));
      nextCursor := page.nextCursor;
      ghost var passed := Driver(nextCursor, newPageCount, allTweets, ids, requests, saves, tweetsCollected, Running);
      assert Step(Driver(cursor, pageCount, allTweets, old(ids), old(requests), old(saves), old(tweetsCollected), Running), w, userId)
          == if page.tweets == [] then passed.(halt := EmptyPage)
             else SaveCollected(CollectPage(passed, w, userId, FullHistoryFilter(page.tweets)), w);
      if page.tweets == [] {
        return nextCursor, newPageCount, allTweets, EmptyPage;
      }
      var filteredTweets := FullHistoryFilter(page.tweets);
      newAllTweets := CollectTweets(w, userId, filteredTweets, allTweets, nextCursor, newPageCount);
      halt := SaveAll(w, newAllTweets, nextCursor, newPageCount);
    }

    /** `fetchAllUserTweets`: the do-while over pages; `threw` when an insert failed and the fetch rethrows. */
    method FetchAllUserTweets(w: World, userId: string) returns (allTweets: seq<TweetData>, threw: bool)
      modifies this
      ensures var r := Run(Start(old(ids), old(requests), old(saves), old(tweetsCollected)), w, userId);
              allTweets == r.all && threw == (r.halt == SaveThrew) && ids == r.ids
              && requests == r.requests && saves == r.saves && tweetsCollected == r.collected
    {
      ghost var start := Start(ids, requests, saves, tweetsCollected);
      allTweets := [];
      var nextCursor: Option<string> := None;
      var pageCount := 0;
      while true
        invariant pageCount < MaxPages
        invariant Run(start, w, userId)
               == Run(Driver(nextCursor, pageCount, allTweets, ids, requests, saves, tweetsCollected, Running), w, userId)
        decreases MaxPages - pageCount
      {
        var halt;
        nextCursor, pageCount, allTweets, halt := FetchPage(w, userId, nextCursor, pageCount, allTweets);
        if halt != Running {
          return allTweets, halt == SaveThrew;
        }
        if !(Truthy(nextCursor) && pageCount < MaxPages) {
          return allTweets, false;
        }
      }
    }
  }
}
