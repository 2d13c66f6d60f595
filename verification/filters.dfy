/**
 * The synchronous filter chain of both fetch scripts. The incremental script
 * drops promoted items, items older than 30 days and reposts, in that order;
 * the full-history script drops promoted items and reposts only. Each stage is
 * `Array.prototype.filter`, so the survivors keep their relative order.
 */
module Filters {
  import opened Wrappers
  import opened JsStrings
  import opened Seqs
  import opened RawItems

  /** The age limit of the incremental script, in whole days. */
  const MaxAgeDays := 30

  /** The prefix by which the repost filter recognises a repost. */
  const RepostPrefix := "RT @"

  /** `filterPromotedContent` keeps an item iff its `promotedMetadata` is falsy. */
  predicate NotPromoted(t: RawItem) {
    !t.promotedMetadata
  }

  /**
   * `filterOldTweets` drops an item iff it has a creation time and the whole-day
   * difference between now and that time is above 30. `dayDiff` is
   * `dayjs().diff(dayjs(createdAt), "day")` for a fixed now; `None` is the NaN an
   * unparsable time gives, which is never above 30.
   */
  predicate IsStale(t: RawItem, dayDiff: string -> Option<int>) {
    var c := CreatedAt(t);
    Truthy(c) && dayDiff(c.value).Some? && dayDiff(c.value).value > MaxAgeDays
  }

  /**
   * `filterRetweets` drops an item iff the first non-empty of the two text paths
   * (default '') starts with "RT @", or `raw.result.legacy.isRetweet` is truthy.
   */
  predicate IsRepost(t: RawItem) {
    StartsWith(FullText(t), RepostPrefix) || t.rawIsRetweet == Some(true)
  }

  /** What the incremental chain keeps. */
  predicate KeptByIncremental(t: RawItem, dayDiff: string -> Option<int>) {
    NotPromoted(t) && !IsStale(t, dayDiff) && !IsRepost(t)
  }

  function KeepIncremental(dayDiff: string -> Option<int>): RawItem -> bool {
    t => KeptByIncremental(t, dayDiff)
  }

  /** What the full-history chain keeps. */
  predicate KeptByFullHistory(t: RawItem) {
    NotPromoted(t) && !IsRepost(t)
  }

  /** The three synchronous stages of the incremental `filterTweets`, in order. */
  function IncrementalFilter(ts: seq<RawItem>, dayDiff: string -> Option<int>): (r: seq<RawItem>)
    ensures r == Filter(ts, KeepIncremental(dayDiff))
    ensures IsSubsequence(r, ts)
    ensures forall t :: t in r <==> t in ts && KeptByIncremental(t, dayDiff)
  {
    var notStale := t => !IsStale(t, dayDiff);
    var notRepost := t => !IsRepost(t);
    var withoutPromoted := Filter(ts, NotPromoted);
    var withoutOld := Filter(withoutPromoted, notStale);
    var withoutRetweets := Filter(withoutOld, notRepost);
    var first := x => NotPromoted(x) && notStale(x);
    FilterFilter(ts, NotPromoted, notStale, first);
    FilterFilter(ts, first, notRepost, KeepIncremental(dayDiff));
    FilterIsSubsequence(ts, KeepIncremental(dayDiff));
    FilterMembershipAll(ts, KeepIncremental(dayDiff));
    withoutRetweets
  }

  /** The full-history `filterTweets`: the promoted stage, then the repost stage. */
  function FullHistoryFilter(ts: seq<RawItem>): (r: seq<RawItem>)
    ensures r == Filter(ts, KeptByFullHistory)
    ensures IsSubsequence(r, ts)
    ensures forall t :: t in r <==> t in ts && KeptByFullHistory(t)
  {
    var notRepost := t => !IsRepost(t);
    var withoutPromoted := Filter(ts, NotPromoted);
    var withoutRetweets := Filter(withoutPromoted, notRepost);
    FilterFilter(ts, NotPromoted, notRepost, KeptByFullHistory);
    FilterIsSubsequence(ts, KeptByFullHistory);
    FilterMembershipAll(ts, KeptByFullHistory);
    withoutRetweets
  }

  /** The age boundary: exactly 30 days is kept, 31 is dropped; an item without creation time is kept. */
  lemma AgeBoundary(t: RawItem, dayDiff: string -> Option<int>)
    ensures !Truthy(CreatedAt(t)) ==> !IsStale(t, dayDiff)
    ensures Truthy(CreatedAt(t)) && dayDiff(CreatedAt(t).value) == Some(30) ==> !IsStale(t, dayDiff)
    ensures Truthy(CreatedAt(t)) && dayDiff(CreatedAt(t).value) == Some(31) ==> IsStale(t, dayDiff)
  {
  }

  /** An item whose direct-path text is "RT @alice: hello" never survives either chain. */
  lemma RepostScenario(ts: seq<RawItem>, t: RawItem, dayDiff: string -> Option<int>)
    requires t.rawFullText == Some("RT @alice: hello")
    ensures t !in IncrementalFilter(ts, dayDiff)
    ensures t !in FullHistoryFilter(ts)
  {
    assert FullText(t)[..4] == RepostPrefix;
  }
}
