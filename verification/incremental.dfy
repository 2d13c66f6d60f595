/**
 * The incremental sync: for every account, fetch the latest timeline page,
 * filter it (promoted, older than 30 days, reposts, already stored), classify
 * each survivor and save it with a check-then-insert against the tweet store,
 * counting added tweets and errors.
 *
 * The store, the timeline API, the AI service and the drawing sink are
 * oracles collected in a `World`. The run's mutable state (the stored ids, the
 * rows inserted by this run, the log of existence lookups and the two
 * counters) is described by `RunState` and the spec functions below; the
 * `Ingestion` class performs the same steps in place.
 */
module IncrementalFetch {
  import opened Wrappers
  import opened JsStrings
  import opened Seqs
  import opened RawItems
  import opened Filters
  import opened Normalize
  import opened Classify

  /** The content type that is first sent to the drawing sink. */
  const AiDraw := "ai_draw"
  /** The only sink status that counts as success. */
  const SinkOk := 200

  /** What the sink POST does: throw (the request or `.json()`), or answer with a status. */
  datatype SinkReply = SinkThrew | SinkStatus(status: int)

  /** The outside world, as total functions of what is asked. */
  datatype World = World(
    timeline: string -> ApiReply,          // getUserTweets({userId})
    dayDiff: string -> Option<int>,        // dayjs().diff(dayjs(createdAt), 'day'); None is NaN
    lookupFails: string -> bool,           // checkTweetExists: query error other than "no rows", or a throw
    saveQueryFails: string -> bool,        // saveTweetToSupabase: query error other than "no rows"
    insertFails: string -> bool,           // saveTweetToSupabase: insert error
    ai: string -> AiReply,                 // createAIService + contentTypeAnalysis(prompt)
    sink: TweetData -> SinkReply)          // handleAiDrawTweet's POST

  /** An account from the users table: its rest id and screen name. */
  datatype Account = Account(id: Option<string>, username: string)

  /** A row of `cron_twitter_tweets`. */
  datatype TweetRow = TweetRow(
    tweetId: string, userId: string, tweetUrl: string, fullText: string, createdAt: Option<string>,
    images: seq<Image>, videos: seq<string>, contentType: string)

  /** The run's state: stored ids, rows inserted by this run, ids looked up, `stats.tweetsAdded`, `stats.errors`. */
  datatype RunState = RunState(
    ids: set<string>, rows: seq<TweetRow>, lookups: seq<string>, tweetsAdded: nat, errors: nat)

  // ---------------------------------------------------------------------------
  // Fetching and filtering

  /** `getUserTweets`: the page's items; [] when the call throws or the page is empty. */
  function GetUserTweets(reply: ApiReply): (r: seq<RawItem>)
    ensures reply.ApiThrew? || reply == ApiResponded(None) ==> r == []
    ensures reply.ApiResponded? && reply.body.Some? && reply.body.value.data.Some? ==> r == reply.body.value.data.value
  {
    match reply
    case ApiThrew => []
    case ApiResponded(body) => if body.Some? then body.value.data.GetOr([]) else []
  }

  /** `checkTweetExists`: logs the lookup; a failed query counts an error and answers "absent". */
  function CheckExists(s: RunState, w: World, id: string): (RunState, bool) {
    var s1 := s.(lookups := s.lookups + [id]);
    if w.lookupFails(id) then (s1.(errors := s1.errors + 1), false) else (s1, id in s.ids)
  }

  /** `filterExistingTweets`, one item at a time: items without an id are dropped without a lookup. */
  function FilterExisting(s: RunState, w: World, ts: seq<RawItem>): (RunState, seq<RawItem>) {
    if ts == [] then (s, [])
    else
      var (s1, kept) := FilterExisting(s, w, ts[..|ts| - 1]);
      var t := ts[|ts| - 1];
      var id := TweetId(t);
      if !Truthy(id) then (s1, kept)
      else
        var (s2, found) := CheckExists(s1, w, id.value);
        (s2, if found then kept else kept + [t])
  }

  /** The item passes the existence stage: it has an id, and the id is not stored or its lookup failed. */
  predicate IsNew(t: RawItem, ids: set<string>, w: World) {
    Truthy(TweetId(t)) && (w.lookupFails(TweetId(t).value) || TweetId(t).value !in ids)
  }

  function KeepNew(ids: set<string>, w: World): RawItem -> bool {
    t => IsNew(t, ids, w)
  }

  /** What the whole incremental `filterTweets` keeps. */
  function KeepForSync(ids: set<string>, w: World): RawItem -> bool {
    t => KeptByIncremental(t, w.dayDiff) && IsNew(t, ids, w)
  }

  /** The ids `filterExistingTweets` looks up, in order. */
  function LookedUp(ts: seq<RawItem>): seq<string> {
    if ts == [] then []
    else LookedUp(ts[..|ts| - 1]) + (if Truthy(TweetId(ts[|ts| - 1])) then [TweetId(ts[|ts| - 1]).value] else [])
  }

  /** How many of those lookups fail. */
  function FailedLookups(ts: seq<RawItem>, w: World): nat {
    if ts == [] then 0
    else
      var id := TweetId(ts[|ts| - 1]);
      FailedLookups(ts[..|ts| - 1], w) + (if Truthy(id) && w.lookupFails(id.value) then 1 else 0)
  }

  /**
   * The existence stage keeps exactly the new items, in order; it only logs the
   * lookups and counts the failed ones as errors.
   */
  lemma {:induction false} FilterExistingKeepsNew(s: RunState, w: World, ts: seq<RawItem>)
    ensures FilterExisting(s, w, ts).1 == Filter(ts, KeepNew(s.ids, w))
    ensures FilterExisting(s, w, ts).0
         == s.(lookups := s.lookups + LookedUp(ts), errors := s.errors + FailedLookups(ts, w))
  {
    if ts != [] {
      FilterExistingKeepsNew(s, w, ts[..|ts| - 1]);
    }
  }

  /** The incremental `filterTweets`: the three synchronous stages, then the existence stage. */
  function SyncFilter(s: RunState, w: World, ts: seq<RawItem>): (RunState, seq<RawItem>) {
    FilterExisting(s, w, IncrementalFilter(ts, w.dayDiff))
  }

  /**
   * `filterTweets` keeps the items that pass all four stages, in their original
   * order; the store is asked only about items that passed the first three.
   */
  lemma SyncFilterKeeps(s: RunState, w: World, ts: seq<RawItem>)
    ensures SyncFilter(s, w, ts).1 == Filter(ts, KeepForSync(s.ids, w))
    ensures IsSubsequence(SyncFilter(s, w, ts).1, ts)
    ensures forall t :: t in SyncFilter(s, w, ts).1 <==> t in ts && KeptByIncremental(t, w.dayDiff) && IsNew(t, s.ids, w)
    ensures SyncFilter(s, w, ts).0.lookups == s.lookups + LookedUp(IncrementalFilter(ts, w.dayDiff))
    ensures SyncFilter(s, w, ts).0 == s.(lookups := SyncFilter(s, w, ts).0.lookups, errors := SyncFilter(s, w, ts).0.errors)
  {
    var sync := IncrementalFilter(ts, w.dayDiff);
    FilterExistingKeepsNew(s, w, sync);
    FilterFilter(ts, KeepIncremental(w.dayDiff), KeepNew(s.ids, w), KeepForSync(s.ids, w));
    FilterIsSubsequence(ts, KeepForSync(s.ids, w));
    FilterMembershipAll(ts, KeepForSync(s.ids, w));
  }

  // ---------------------------------------------------------------------------
  // Saving

  /** The row inserted for a record (`content_type` defaults to 'unknown'). */
  function RowOf(data: TweetData, restId: string): (r: TweetRow)
    ensures r.tweetId == data.tweetId && r.userId == restId
    ensures r.contentType != ""
    ensures data.contentType == "" ==> r.contentType == DefaultContentType
  {
    TweetRow(data.tweetId, restId, data.tweetUrl, data.fullText, data.createdAt, data.images, data.videos,
             if data.contentType != "" then data.contentType else DefaultContentType)
  }

  /** Whether `saveTweetToSupabase` inserts: the query succeeds, the id is absent, the insert succeeds. */
  predicate Inserts(s: RunState, w: World, id: string) {
    !w.saveQueryFails(id) && id !in s.ids && !w.insertFails(id)
  }

  /** `saveTweetToSupabase`: check, then insert; a query or insert error only counts an error. */
  function SaveTweet(s: RunState, w: World, data: TweetData, restId: string): RunState {
    if w.saveQueryFails(data.tweetId) then s.(errors := s.errors + 1)
    else if data.tweetId in s.ids then s
    else if w.insertFails(data.tweetId) then s.(errors := s.errors + 1)
    else s.(ids := s.ids + {data.tweetId}, rows := s.rows + [RowOf(data, restId)], tweetsAdded := s.tweetsAdded + 1)
  }

  /**
   * The save path: a row is added, and `tweetsAdded` grows by one, exactly when
   * the id was absent and both queries succeeded; an id already stored changes
   * nothing; a failure changes only `errors`, by one.
   */
  lemma SaveTweetEffect(s: RunState, w: World, data: TweetData, restId: string)
    ensures var r := SaveTweet(s, w, data, restId);
            Inserts(s, w, data.tweetId) ==>
              r == s.(ids := s.ids + {data.tweetId}, rows := s.rows + [RowOf(data, restId)], tweetsAdded := s.tweetsAdded + 1)
    ensures var r := SaveTweet(s, w, data, restId);
            !Inserts(s, w, data.tweetId) ==> r.ids == s.ids && r.rows == s.rows && r.tweetsAdded == s.tweetsAdded
    ensures !w.saveQueryFails(data.tweetId) && data.tweetId in s.ids ==> SaveTweet(s, w, data, restId) == s
    ensures w.saveQueryFails(data.tweetId) || (data.tweetId !in s.ids && w.insertFails(data.tweetId))
            ==> SaveTweet(s, w, data, restId) == s.(errors := s.errors + 1)
  {
  }

  /** Saving a record a second time changes nothing when the store answers. */
  lemma SaveTwiceIsSaveOnce(s: RunState, w: World, data: TweetData, restId: string)
    requires !w.saveQueryFails(data.tweetId) && !w.insertFails(data.tweetId)
    ensures SaveTweet(SaveTweet(s, w, data, restId), w, data, restId) == SaveTweet(s, w, data, restId)
  {
  }

  /** The rest id a record is saved under: the top-level `restId`, else `user.restId`, else ''. */
  function SaveRestId(data: TweetData): (r: string)
    ensures data.restId != "" ==> r == data.restId
    ensures r == "" <==> data.restId == "" && !Truthy(data.user.restId)
  {
    if data.restId != "" then data.restId else OrElse(data.user.restId, "")
  }

  /** `saveToSupabase`: records without a screen name or without a rest id are skipped. */
  function SaveRecord(s: RunState, w: World, data: TweetData): (r: RunState)
    ensures data.user.screenName == "" || SaveRestId(data) == "" ==> r == s
    ensures data.user.screenName != "" && SaveRestId(data) != "" ==> r == SaveTweet(s, w, data, SaveRestId(data))
  {
    if data.user.screenName == "" || SaveRestId(data) == "" then s
    else SaveTweet(s, w, data, SaveRestId(data))
  }

  // ---------------------------------------------------------------------------
  // Processing

  /** `handleAiDrawTweet`: `None` when it throws, else whether the status is 200. */
  function HandleAiDrawTweet(reply: SinkReply): (r: Option<bool>)
    ensures r == Some(true) <==> reply == SinkStatus(SinkOk)
    ensures r.None? <==> reply.SinkThrew?
  {
    match reply
    case SinkThrew => None
    case SinkStatus(status) => Some(status == SinkOk)
  }

  /** An item `processTweet` goes on with: it has a screen name and an id. */
  predicate Identified(t: RawItem) {
    Truthy(t.user.screenName) && Truthy(TweetId(t))
  }

  /** The record `processTweet` builds: extracted, then given its content type. */
  function Classified(t: RawItem, w: World): (r: TweetData)
    requires Identified(t)
    ensures r.tweetId == TweetId(t).value && r.user.screenName == t.user.screenName.value
    ensures r.contentType == ContentTypeOf(ExtractTweetData(t, t.user.screenName.value, TweetId(t).value, Incremental), w.ai)
  {
    var data := ExtractTweetData(t, t.user.screenName.value, TweetId(t).value, Incremental);
    data.(contentType := ContentTypeOf(data, w.ai))
  }

  /** What `processTweet` does with an item, whatever the state: nothing, count an error, or save a record. */
  datatype Step = Skip | CountError | Save(data: TweetData)

  /** `processTweet`'s decision: skip unidentified items; 'ai_draw' records go to the sink first and are saved only on 200. */
  function Decide(w: World, t: RawItem): (r: Step)
    ensures !Identified(t) ==> r == Skip
    ensures r.Save? ==> Identified(t) && r.data == Classified(t, w)
    ensures r.CountError? ==> Identified(t) && Classified(t, w).contentType == AiDraw && w.sink(Classified(t, w)).SinkThrew?
  {
    if !Identified(t) then Skip else DecideRecord(w, Classified(t, w))
  }

  /** The decision on a classified record: saved unless it is an 'ai_draw' the sink did not accept with 200. */
  function DecideRecord(w: World, data: TweetData): (r: Step)
    ensures data.contentType != AiDraw ==> r == Save(data)
    ensures r == Skip <==> data.contentType == AiDraw && w.sink(data).SinkStatus? && w.sink(data).status != SinkOk
    ensures r == CountError <==> data.contentType == AiDraw && w.sink(data).SinkThrew?
  {
    if data.contentType != AiDraw then Save(data)
    else
      match HandleAiDrawTweet(w.sink(data))
      case None => CountError
      case Some(ok) => if ok then Save(data) else Skip
  }

  function Apply(s: RunState, w: World, step: Step): RunState {
    match step
    case Skip => s
    case CountError => s.(errors := s.errors + 1)
    case Save(data) => SaveRecord(s, w, data)
  }

  /** `processTweet` on the run's state. */
  function ProcessItem(s: RunState, w: World, t: RawItem): RunState {
    Apply(s, w, Decide(w, t))
  }

  /** An item without a screen name or an id saves nothing and counts nothing. */
  lemma UnidentifiedIsSkipped(s: RunState, w: World, t: RawItem)
    requires !Truthy(t.user.screenName) || !Truthy(TweetId(t))
    ensures ProcessItem(s, w, t) == s
  {
  }

  /** An 'ai_draw' record the sink answers with a status other than 200 is not saved. */
  lemma RejectedDrawingIsNotSaved(s: RunState, w: World, t: RawItem)
    requires Identified(t) && Classified(t, w).contentType == AiDraw
    requires w.sink(Classified(t, w)).SinkStatus? && w.sink(Classified(t, w)).status != SinkOk
    ensures ProcessItem(s, w, t) == s
  {
  }

  /** The tweets of one account, each tagged with the account id, processed in order. */
  function ProcessItems(s: RunState, w: World, ts: seq<RawItem>, accountId: string): RunState {
    if ts == [] then s
    else ProcessItem(ProcessItems(s, w, ts[..|ts| - 1], accountId), w, ts[|ts| - 1].(runtimeRestId := Some(accountId)))
  }

  /** One turn of `processAllUsers`: accounts without an id are skipped, then fetch, filter and process. */
  function ProcessAccount(s: RunState, w: World, a: Account): RunState {
    if !Truthy(a.id) then s
    else
      var tweets := GetUserTweets(w.timeline(a.id.value));
      if tweets == [] then s
      else
        var (s1, filtered) := SyncFilter(s, w, tweets);
        ProcessItems(s1, w, filtered, a.id.value)
  }

  /** `processAllUsers` over the account list. */
  function ProcessAccounts(s: RunState, w: World, accounts: seq<Account>): RunState {
    if accounts == [] then s
    else ProcessAccount(ProcessAccounts(s, w, accounts[..|accounts| - 1]), w, accounts[|accounts| - 1])
  }

  // ---------------------------------------------------------------------------
  // The counters stay in step with the store

  /** The ids of a list of rows. */
  function RowIds(rows: seq<TweetRow>): set<string> {
    set i | 0 <= i < |rows| :: rows[i].tweetId
  }

  predicate DistinctIds(rows: seq<TweetRow>) {
    forall i, j :: 0 <= i < j < |rows| ==> rows[i].tweetId != rows[j].tweetId
  }

  /**
   * Relative to the ids stored before the run (`base`): the store holds `base`
   * and the ids of the inserted rows, no id is inserted twice or was there
   * before, and `tweetsAdded` is the number of inserted rows.
   */
  predicate Consistent(s: RunState, base: set<string>) {
    && s.ids == base + RowIds(s.rows)
    && base !! RowIds(s.rows)
    && DistinctIds(s.rows)
    && s.tweetsAdded == |s.rows|
    && |s.ids| == |base| + |s.rows|
  }

  lemma RowIdsSnoc(rows: seq<TweetRow>, row: TweetRow)
    ensures RowIds(rows + [row]) == RowIds(rows) + {row.tweetId}
  {
    var all := rows + [row];
    forall x | x in RowIds(all) ensures x in RowIds(rows) + {row.tweetId} {
      var i :| 0 <= i < |all| && all[i].tweetId == x;
      if i < |rows| { assert rows[i].tweetId == x; }
    }
    forall x | x in RowIds(rows) ensures x in RowIds(all) {
      var i :| 0 <= i < |rows| && rows[i].tweetId == x;
      assert all[i].tweetId == x;
    }
    assert all[|rows|].tweetId == row.tweetId;
  }

  lemma DistinctSnoc(rows: seq<TweetRow>, row: TweetRow)
    requires DistinctIds(rows) && row.tweetId !in RowIds(rows)
    ensures DistinctIds(rows + [row])
  {
    var all := rows + [row];
    forall i, j | 0 <= i < j < |all| ensures all[i].tweetId != all[j].tweetId {
      assert all[i] == rows[i];
      if j < |rows| {
        assert all[j] == rows[j];
      } else {
        assert rows[i].tweetId in RowIds(rows);
      }
    }
  }

  /** Inserting a row whose id is not stored keeps the store and the counter in step. */
  lemma InsertKeepsConsistent(s: RunState, row: TweetRow, base: set<string>)
    requires Consistent(s, base) && row.tweetId !in s.ids
    ensures Consistent(s.(ids := s.ids + {row.tweetId}, rows := s.rows + [row], tweetsAdded := s.tweetsAdded + 1), base)
  {
    RowIdsSnoc(s.rows, row);
    DistinctSnoc(s.rows, row);
    AddNewId(s.ids, base, RowIds(s.rows), row.tweetId);
  }

  /** Adding an id absent from `ids == base + inserted` keeps the split, and adds one to the size. */
  lemma AddNewId(ids: set<string>, base: set<string>, inserted: set<string>, id: string)
    requires ids == base + inserted && base !! inserted && id !in ids
    ensures ids + {id} == base + (inserted + {id}) && base !! (inserted + {id})
    ensures |ids + {id}| == |ids| + 1
  {
  }

  lemma SaveTweetKeepsConsistent(s: RunState, w: World, data: TweetData, restId: string, base: set<string>)
    requires Consistent(s, base)
    ensures Consistent(SaveTweet(s, w, data, restId), base)
  {
    if Inserts(s, w, data.tweetId) {
      InsertKeepsConsistent(s, RowOf(data, restId), base);
    }
  }

  lemma ProcessItemKeepsConsistent(s: RunState, w: World, t: RawItem, base: set<string>)
    requires Consistent(s, base)
    ensures Consistent(ProcessItem(s, w, t), base)
  {
    var step := Decide(w, t);
    if step.Save? && step.data.user.screenName != "" && SaveRestId(step.data) != "" {
      SaveTweetKeepsConsistent(s, w, step.data, SaveRestId(step.data), base);
    }
  }

  lemma {:induction false} ProcessItemsKeepsConsistent(s: RunState, w: World, ts: seq<RawItem>, accountId: string, base: set<string>)
    requires Consistent(s, base)
    ensures Consistent(ProcessItems(s, w, ts, accountId), base)
  {
    if ts != [] {
      ProcessItemsKeepsConsistent(s, w, ts[..|ts| - 1], accountId, base);
      ProcessItemKeepsConsistent(ProcessItems(s, w, ts[..|ts| - 1], accountId), w,
                                  ts[|ts| - 1].(runtimeRestId := Some(accountId)), base);
    }
  }

  lemma ProcessAccountKeepsConsistent(s: RunState, w: World, a: Account, base: set<string>)
    requires Consistent(s, base)
    ensures Consistent(ProcessAccount(s, w, a), base)
  {
    if Truthy(a.id) {
      var tweets := GetUserTweets(w.timeline(a.id.value));
      if tweets != [] {
        SyncFilterKeeps(s, w, tweets);
        var (s1, filtered) := SyncFilter(s, w, tweets);
        ProcessItemsKeepsConsistent(s1, w, filtered, a.id.value, base);
      }
    }
  }

  lemma {:induction false} ProcessAccountsKeepsConsistent(s: RunState, w: World, accounts: seq<Account>, base: set<string>)
    requires Consistent(s, base)
    ensures Consistent(ProcessAccounts(s, w, accounts), base)
  {
    if accounts != [] {
      ProcessAccountsKeepsConsistent(s, w, accounts[..|accounts| - 1], base);
      ProcessAccountKeepsConsistent(ProcessAccounts(s, w, accounts[..|accounts| - 1]), w, accounts[|accounts| - 1], base);
    }
  }

  /**
   * Over a whole run started with zero counters: `tweetsAdded` is exactly the
   * number of ids the store gained, no tweet is inserted twice, and no stored
   * tweet is inserted again.
   */
  lemma TweetsAddedCountsNewIds(s: RunState, w: World, accounts: seq<Account>)
    requires s.rows == [] && s.tweetsAdded == 0
    ensures var r := ProcessAccounts(s, w, accounts);
            s.ids <= r.ids && r.tweetsAdded == |r.ids| - |s.ids|
            && DistinctIds(r.rows) && forall i :: 0 <= i < |r.rows| ==> r.rows[i].tweetId !in s.ids
  {
    assert RowIds([]) == {};
    ProcessAccountsKeepsConsistent(s, w, accounts, s.ids);
    var r := ProcessAccounts(s, w, accounts);
    forall i | 0 <= i < |r.rows| ensures r.rows[i].tweetId !in s.ids {
      assert r.rows[i].tweetId in RowIds(r.rows);
    }
  }

  // ---------------------------------------------------------------------------
  // The run, in place

  class Ingestion {
    var ids: set<string>
    var rows: seq<TweetRow>
    var lookups: seq<string>
    var tweetsAdded: nat
    var errors: nat

    function State(): RunState
      reads this
    {
      RunState(ids, rows, lookups, tweetsAdded, errors)
    }

    /** A run over a store that already holds `stored`, with both counters at zero. */
    constructor (stored: set<string>)
      ensures State() == RunState(stored, [], [], 0, 0)
    {
      ids, rows, lookups, tweetsAdded, errors := stored, [], [], 0, 0;
    }

    method CheckTweetExists(w: World, tweetId: string) returns (found: bool)
      modifies this
      ensures (State(), found) == CheckExists(old(State()), w, tweetId)
    {
      lookups := lookups + [tweetId];
      if w.lookupFails(tweetId) {
        errors := errors + 1;
        return false;
      }
      found := tweetId in ids;
    }

    method FilterExistingTweets(w: World, tweets: seq<RawItem>) returns (kept: seq<RawItem>)
      modifies this
      ensures (State(), kept) == FilterExisting(old(State()), w, tweets)
    {
      kept := [];
      var i := 0;
      while i < |tweets|
        invariant 0 <= i <= |tweets|
        invariant (State(), kept) == FilterExisting(old(State()), w, tweets[..i])
      {
        assert tweets[..i + 1][..i] == tweets[..i];
        var tweetId := TweetId(tweets[i]);
        if Truthy(tweetId) {
          var found := CheckTweetExists(w, tweetId.value);
          if !found {
            kept := kept + [tweets[i]];
          }
        }
        i := i + 1;
      }
      assert tweets[..|tweets|] == tweets;
    }

    method FilterTweets(w: World, tweets: seq<RawItem>) returns (kept: seq<RawItem>)
      modifies this
      ensures (State(), kept) == SyncFilter(old(State()), w, tweets)
    {
      var withoutRetweets := IncrementalFilter(tweets, w.dayDiff);
      kept := FilterExistingTweets(w, withoutRetweets);
    }

    method SaveTweetToSupabase(w: World, data: TweetData, restId: string)
      modifies this
      ensures State() == SaveTweet(old(State()), w, data, restId)
    {
      if w.saveQueryFails(data.tweetId) {
        errors := errors + 1;
        return;
      }
      if data.tweetId !in ids {
        if w.insertFails(data.tweetId) {
          errors := errors + 1;
          return;
        }
        ids := ids + {data.tweetId};
        rows := rows + [RowOf(data, restId)];
        tweetsAdded := tweetsAdded + 1;
      }
    }

    method SaveToSupabase(w: World, data: TweetData)
      modifies this
      ensures State() == SaveRecord(old(State()), w, data)
    {
      var restId := SaveRestId(data);
      if data.user.screenName == "" || restId == "" {
        return;
      }
      SaveTweetToSupabase(w, data, restId);
    }

    /** The record `processTweet` builds: `extractTweetData`, then `judgeContentType`. */
    method ClassifyTweet(w: World, t: RawItem) returns (data: TweetData)
      requires Identified(t)
      ensures data == Classified(t, w)
    {
      data := ExtractTweetData(t, t.user.screenName.value, TweetId(t).value, Incremental);
      var contentType, _ := JudgeContentType(data, w.ai);
      data := data.(contentType := contentType);
    }

    method ProcessTweet(w: World, t: RawItem)
      modifies this
      ensures State() == ProcessItem(old(State()), w, t)
    {
      var screenName := t.user.screenName;
      var tweetId := TweetId(t);
      if !Truthy(screenName) || !Truthy(tweetId) {
        return;
      }
      var data := ClassifyTweet(w, t);
      ProcessRecord(w, data);
    }

    /** The rest of `processTweet` once the record is classified: the 'ai_draw' branch, then the save. */
    method ProcessRecord(w: World, data: TweetData)
      modifies this
      ensures State() == Apply(old(State()), w, DecideRecord(w, data))
    {
      if data.contentType == AiDraw {
        var success := HandleAiDrawTweet(w.sink(data));
        if success.None? {
          errors := errors + 1;
          return;
        }
        if !success.value {
          return;
        }
      }
      SaveToSupabase(w, data);
    }

    /** The inner loop of `processAllUsers`: each kept tweet, tagged with the account id, through `processTweet`. */
    method ProcessUserTweets(w: World, filtered: seq<RawItem>, accountId: string)
      modifies this
      ensures State() == ProcessItems(old(State()), w, filtered, accountId)
    {
      var j := 0;
      while j < |filtered|
        invariant 0 <= j <= |filtered|
        invariant State() == ProcessItems(old(State()), w, filtered[..j], accountId)
      {
        assert filtered[..j + 1][..j] == filtered[..j];
        ProcessTweet(w, filtered[j].(runtimeRestId := Some(accountId)));
        j := j + 1;
      }
      assert filtered[..|filtered|] == filtered;
    }

    /** The body of `processAllUsers` for one account: fetch, filter, then process. */
    method ProcessUser(w: World, account: Account)
      modifies this
      ensures State() == ProcessAccount(old(State()), w, account)
    {
      if Truthy(account.id) {
        var tweets := GetUserTweets(w.timeline(account.id.value));
        if tweets != [] {
          var filtered := FilterTweets(w, tweets);
          ProcessUserTweets(w, filtered, account.id.value);
        }
      }
    }

    method ProcessAllUsers(w: World, accounts: seq<Account>)
      modifies this
      ensures State() == ProcessAccounts(old(State()), w, accounts)
    {
      var i := 0;
      while i < |accounts|
        invariant 0 <= i <= |accounts|
        invariant State() == ProcessAccounts(old(State()), w, accounts[..i])
      {
        assert accounts[..i + 1][..i] == accounts[..i];
        ProcessUser(w, accounts[i]);
        i := i + 1;
      }
      assert accounts[..|accounts|] == accounts;
    }
  }
}
