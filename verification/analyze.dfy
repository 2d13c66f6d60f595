/**
 * The offline analyser of saved timeline items: whether an item is a repost,
 * which author, text and media it describes, its type by an ordered rule
 * table, and which files of a directory it reads and writes.
 */
module AnalyzeTweet {
  import opened Wrappers
  import opened JsStrings
  import opened Seqs
  import opened RawItems
  import opened Filters

  // ---------------------------------------------------------------------------
  // The saved item, as far as the analyser reads it; `None` marks a missing property

  /** `core.userResults.result` with its `legacy` profile. */
  datatype UserNode = UserNode(
    name: Option<string>, screenName: Option<string>, isBlueVerified: Option<bool>, followersCount: Option<int>)

  /** `noteTweet.noteTweetResults`: the results object and its `result.text`. */
  datatype NoteResults = NoteResults(result: Option<Option<string>>)

  /** `legacy` of a tweet; `retweeted` is `retweetedStatusResult` (when truthy) and its `result`. */
  datatype TweetLegacy = TweetLegacy(
    fullText: Option<string>, createdAt: Option<string>,
    retweetCount: Option<int>, favoriteCount: Option<int>, replyCount: Option<int>,
    lang: Option<string>, media: Option<seq<Media>>, retweeted: Option<Option<TweetNode>>)

  /** A tweet object (`raw.result`, or the `result` of a reposted one). */
  datatype TweetNode = TweetNode(user: Option<UserNode>, legacy: Option<TweetLegacy>, noteResults: Option<NoteResults>)

  /** A parsed file: its `raw.result`. */
  datatype TweetFile = TweetFile(raw: Option<TweetNode>)

  // ---------------------------------------------------------------------------
  // The analysis

  datatype AuthorInfo = AuthorInfo(name: Option<string>, screenName: Option<string>, isVerified: bool, followersCount: Option<int>)

  datatype TweetStats = TweetStats(retweets: Option<int>, favorites: Option<int>, replies: Option<int>)

  /** The `result` object; a `None` field is one the analyser did not set. Dates are kept as the raw strings. */
  datatype Analysis = Analysis(
    isRetweet: bool,
    originalAuthor: Option<AuthorInfo>, originalTweetText: Option<string>, originalTweetDate: Option<string>,
    originalTweetStats: Option<TweetStats>, forwardContent: Option<string>,
    author: Option<AuthorInfo>, tweetText: Option<string>, tweetDate: Option<string>, tweetStats: Option<TweetStats>,
    hasMedia: bool, mediaType: Option<string>,
    imgUrls: Option<seq<Option<string>>>, videoUrls: Option<seq<Option<string>>>, gifUrls: Option<seq<Option<string>>>,
    isNoteTweet: bool, fullNoteText: Option<string>, language: Option<string>,
    tweetType: string)

  const Blank := Analysis(false, None, None, None, None, None, None, None, None, None,
                          false, None, None, None, None, false, None, None, "")

  const Photo := "photo"
  const Video := "video"
  const AnimatedGif := "animated_gif"
  const UnknownMedia := "unknown"

  // ---------------------------------------------------------------------------
  // The type rule table

  const NoteTweetType := "NOTE_TWEET: 长文本"
  const MediaTweetType := "MEDIA_TWEET: 媒体"
  const AnnouncementType := "ANNOUNCEMENT: 公告"
  const AiRelatedType := "AI_RELATED: AI相关"
  const RegularType := "REGULAR_TWEET: 普通推文"

  const AnnouncementKeywords: seq<string> := ["\U{1F4E2}", "公告", "通知", "发布", "更新", "release", "update", "announcement"]
  const AiKeywords: seq<string> := ["AI", "人工智能", "Midjourney", "GPT", "Machine Learning", "机器学习"]

  /** Some keyword occurs in the text, as written. */
  predicate MentionsAny(text: string, keywords: seq<string>) {
    exists i :: 0 <= i < |keywords| && Contains(text, keywords[i])
  }

  /** Some keyword occurs in the text, both lower-cased. */
  predicate MentionsAnyIgnoringCase(text: string, keywords: seq<string>) {
    exists i :: 0 <= i < |keywords| && Contains(ToLower(text), ToLower(keywords[i]))
  }

  /** The text the keyword rules read: `originalTweetText || tweetText || ''`. */
  function TextOf(info: Analysis): string {
    OrElse(Or(info.originalTweetText, info.tweetText), "")
  }

  /** `getTweetType`: the first rule that matches, in the order note, media, announcement, AI, regular. */
  function GetTweetType(info: Analysis): (r: string)
    ensures r == NoteTweetType <==> info.isNoteTweet
    ensures r == MediaTweetType <==> !info.isNoteTweet && info.hasMedia
    ensures r == AnnouncementType <==> !info.isNoteTweet && !info.hasMedia && MentionsAny(TextOf(info), AnnouncementKeywords)
    ensures r == AiRelatedType <==> !info.isNoteTweet && !info.hasMedia && !MentionsAny(TextOf(info), AnnouncementKeywords)
                                    && MentionsAnyIgnoringCase(TextOf(info), AiKeywords)
    ensures r == RegularType <==> !info.isNoteTweet && !info.hasMedia && !MentionsAny(TextOf(info), AnnouncementKeywords)
                                  && !MentionsAnyIgnoringCase(TextOf(info), AiKeywords)
  {
    if info.isNoteTweet then NoteTweetType
    else if info.hasMedia then MediaTweetType
    else
      var text := TextOf(info);
      if MentionsAny(text, AnnouncementKeywords) then AnnouncementType
      else if MentionsAnyIgnoringCase(text, AiKeywords) then AiRelatedType
      else RegularType
  }

  /** An occurrence fits in the text and starts with one of its characters. */
  lemma ContainsBounds(s: string, k: string)
    requires Contains(s, k)
    ensures |k| <= |s|
    ensures k != "" ==> k[0] in s
  {
    ContainsAt(s, k);
    var i :| OccursAt(s, k, i);
    if k != "" {
      assert s[i] == s[i..i + |k|][0];
    }
  }

  /** Any text with "ai" in any case that reaches the AI rule is AI related. */
  lemma AiInAnyCaseIsAiRelated(info: Analysis)
    requires !info.isNoteTweet && !info.hasMedia && !MentionsAny(TextOf(info), AnnouncementKeywords)
    requires Contains(ToLower(TextOf(info)), "ai")
    ensures GetTweetType(info) == AiRelatedType
  {
    assert ToLower(AiKeywords[0]) == "ai";
  }

  /** "said" is no announcement, and it contains "ai": a plain item saying "said" is AI related. */
  lemma SaidIsAiRelated(info: Analysis)
    requires !info.isNoteTweet && !info.hasMedia && TextOf(info) == "said"
    ensures GetTweetType(info) == AiRelatedType
  {
    var text := "said";
    forall i | 0 <= i < |AnnouncementKeywords| ensures !Contains(text, AnnouncementKeywords[i]) {
      if Contains(text, AnnouncementKeywords[i]) {
        ContainsBounds(text, AnnouncementKeywords[i]);
      }
    }
    assert ToLower(text) == text;
    assert OccursAt(text, "ai", 1);
    ContainsAt(text, "ai");
    AiInAnyCaseIsAiRelated(info);
  }

  // ---------------------------------------------------------------------------
  // Media

  /** The five media fields of an analysis. */
  datatype MediaInfo = MediaInfo(
    hasMedia: bool, mediaType: Option<string>,
    imgUrls: Option<seq<Option<string>>>, videoUrls: Option<seq<Option<string>>>, gifUrls: Option<seq<Option<string>>>)

  function MediaOf(a: Analysis): MediaInfo {
    MediaInfo(a.hasMedia, a.mediaType, a.imgUrls, a.videoUrls, a.gifUrls)
  }

  /** `media.map(item => item.mediaUrlHttps)`. */
  function Urls(ms: seq<Media>): (r: seq<Option<string>>)
    ensures |r| == |ms| && forall i :: 0 <= i < |ms| ==> r[i] == ms[i].mediaUrlHttps
  {
    seq(|ms|, i requires 0 <= i < |ms| => ms[i].mediaUrlHttps)
  }

  /**
   * The media fields for a media list: the type of the first item decides;
   * photo, video and animated_gif list every item's URL under their own field,
   * any other type becomes "unknown" with no list.
   */
  function MediaSummary(media: Option<seq<Media>>): (r: MediaInfo)
    ensures r.hasMedia <==> media.Some? && |media.value| > 0
    ensures !r.hasMedia ==> r == MediaInfo(false, None, None, None, None)
    ensures r.hasMedia ==> r.mediaType.Some? && r.mediaType.value in {Photo, Video, AnimatedGif, UnknownMedia}
    ensures r.hasMedia && media.value[0].mediaType == Some(Photo) ==>
              r == MediaInfo(true, Some(Photo), Some(Urls(media.value)), None, None)
    ensures r.hasMedia && media.value[0].mediaType == Some(Video) ==>
              r == MediaInfo(true, Some(Video), None, Some(Urls(media.value)), None)
    ensures r.hasMedia && media.value[0].mediaType == Some(AnimatedGif) ==>
              r == MediaInfo(true, Some(AnimatedGif), None, None, Some(Urls(media.value)))
    ensures r.hasMedia && media.value[0].mediaType !in {Some(Photo), Some(Video), Some(AnimatedGif)} ==>
              r == MediaInfo(true, Some(UnknownMedia), None, None, None)
  {
    if media.None? || |media.value| == 0 then MediaInfo(false, None, None, None, None)
    else
      var t := media.value[0].mediaType;
      if t == Some(Photo) then MediaInfo(true, t, Some(Urls(media.value)), None, None)
      else if t == Some(Video) then MediaInfo(true, t, None, Some(Urls(media.value)), None)
      else if t == Some(AnimatedGif) then MediaInfo(true, t, None, None, Some(Urls(media.value)))
      else MediaInfo(true, Some(UnknownMedia), None, None, None)
  }

  // ---------------------------------------------------------------------------
  // analyzeTweet

  /** The original-tweet branch is taken: the text starts with "RT @" and `retweetedStatusResult` is present. */
  predicate TakesOriginalBranch(tweet: TweetNode)
    requires tweet.legacy.Some? && tweet.legacy.value.fullText.Some?
  {
    StartsWith(tweet.legacy.value.fullText.value, RepostPrefix) && tweet.legacy.value.retweeted.Some?
  }

  /** A property read on the examined tweet fails: no author profile, no `legacy`, or a note without `result`. */
  predicate NodeThrows(n: TweetNode, readsNote: bool) {
    n.user.None? || n.legacy.None? || (readsNote && n.noteResults.Some? && n.noteResults.value.result.None?)
  }

  /** Where `analyzeTweet` throws, and so returns null: an unreadable file or a missing property on the path it reads. */
  predicate Throws(file: Option<TweetFile>) {
    if file.None? || file.value.raw.None? || file.value.raw.value.legacy.None?
       || file.value.raw.value.legacy.value.fullText.None? then true
    else
      var tweet := file.value.raw.value;
      if TakesOriginalBranch(tweet) then
        tweet.legacy.value.retweeted.value.None? || NodeThrows(tweet.legacy.value.retweeted.value.value, false)
      else NodeThrows(tweet, true)
  }

  /** The tweet whose fields the analysis reports: the reposted original, or the item itself. */
  function Examined(file: Option<TweetFile>): (n: TweetNode)
    requires !Throws(file)
    ensures n.user.Some? && n.legacy.Some?
  {
    var tweet := file.value.raw.value;
    if TakesOriginalBranch(tweet) then tweet.legacy.value.retweeted.value.value else tweet
  }

  function AuthorOf(u: UserNode): AuthorInfo {
    AuthorInfo(u.name, u.screenName, u.isBlueVerified == Some(true), u.followersCount)
  }

  function StatsOf(l: TweetLegacy): TweetStats {
    TweetStats(l.retweetCount, l.favoriteCount, l.replyCount)
  }

  /**
   * The analysis of a file: null when reading it or a property on the way
   * throws; otherwise the examined tweet's author, text, date and counts under
   * the original-tweet fields (a repost) or the plain ones, its media summary,
   * its note text and language, and the type the rule table gives.
   */
  function AnalysisOf(file: Option<TweetFile>): (r: Option<Analysis>)
    ensures r.None? <==> Throws(file)
    ensures r.Some? ==> r.value.isRetweet == StartsWith(file.value.raw.value.legacy.value.fullText.value, RepostPrefix)
    ensures r.Some? ==> (r.value.originalAuthor.Some? <==> TakesOriginalBranch(file.value.raw.value))
                        && (r.value.author.Some? <==> !TakesOriginalBranch(file.value.raw.value))
    ensures r.Some? ==> var n := Examined(file);
                        r.value.originalAuthor.Some? ==> r.value.originalAuthor == Some(AuthorOf(n.user.value))
    ensures r.Some? ==> var n := Examined(file);
                        r.value.author.Some? ==> r.value.author == Some(AuthorOf(n.user.value))
    ensures r.Some? ==> var legacy := Examined(file).legacy.value;
                        if TakesOriginalBranch(file.value.raw.value) then
                          && r.value.originalTweetText == legacy.fullText && r.value.originalTweetDate == legacy.createdAt
                          && r.value.originalTweetStats == Some(StatsOf(legacy))
                          && r.value.tweetText.None? && r.value.tweetDate.None? && r.value.tweetStats.None?
                        else
                          && r.value.tweetText == legacy.fullText && r.value.tweetDate == legacy.createdAt
                          && r.value.tweetStats == Some(StatsOf(legacy))
                          && r.value.originalTweetText.None? && r.value.originalTweetDate.None? && r.value.originalTweetStats.None?
    ensures r.Some? ==> r.value.forwardContent == r.value.originalTweetText
    ensures r.Some? && TakesOriginalBranch(file.value.raw.value) ==> !r.value.isNoteTweet && r.value.fullNoteText.None?
    ensures r.Some? && !TakesOriginalBranch(file.value.raw.value) ==> (r.value.isNoteTweet <==> Examined(file).noteResults.Some?)
    ensures r.Some? && r.value.isNoteTweet ==> r.value.fullNoteText == Examined(file).noteResults.value.result.value
    ensures r.Some? && !r.value.isNoteTweet ==> r.value.fullNoteText.None?
    ensures r.Some? ==> MediaOf(r.value) == MediaSummary(Examined(file).legacy.value.media)
    ensures r.Some? ==> r.value.language == Examined(file).legacy.value.lang
    ensures r.Some? ==> r.value.tweetType == GetTweetType(r.value)
  {
    if Throws(file) then None
    else
      var tweet := file.value.raw.value;
      var n := Examined(file);
      var legacy := n.legacy.value;
      var m := MediaSummary(legacy.media);
      var isRetweet := StartsWith(tweet.legacy.value.fullText.value, RepostPrefix);
      var a :=
        if TakesOriginalBranch(tweet) then
          Analysis(isRetweet, Some(AuthorOf(n.user.value)), legacy.fullText, legacy.createdAt, Some(StatsOf(legacy)),
                   legacy.fullText, None, None, None, None,
                   m.hasMedia, m.mediaType, m.imgUrls, m.videoUrls, m.gifUrls, false, None, legacy.lang, "")
        else
          var note := if n.noteResults.Some? then n.noteResults.value.result.value else None;
          Analysis(isRetweet, None, None, None, None, None,
                   Some(AuthorOf(n.user.value)), legacy.fullText, legacy.createdAt, Some(StatsOf(legacy)),
                   m.hasMedia, m.mediaType, m.imgUrls, m.videoUrls, m.gifUrls, n.noteResults.Some?, note, legacy.lang, "");
      Some(a.(tweetType := GetTweetType(a)))
  }

  /**
   * `analyzeTweet`: fills the result field by field; null when reading the
   * file or any property on the way throws.
   */
  method Analyze(file: Option<TweetFile>) returns (r: Option<Analysis>)
    ensures r == AnalysisOf(file)
  {
    if Throws(file) {
      return None;
    }
    var tweetData := file.value;
    var result := Blank;
    var isRetweet := StartsWith(tweetData.raw.value.legacy.value.fullText.value, RepostPrefix);
    result := result.(isRetweet := isRetweet);
    var node: TweetNode;
    if isRetweet && tweetData.raw.value.legacy.value.retweeted.Some? {
      var originalTweet := tweetData.raw.value.legacy.value.retweeted.value.value;
      node := originalTweet;
      var legacy := originalTweet.legacy.value;
      result := result.(originalAuthor := Some(AuthorOf(originalTweet.user.value)));
      result := result.(originalTweetText := legacy.fullText);
      result := result.(originalTweetDate := legacy.createdAt);
      result := result.(originalTweetStats := Some(StatsOf(legacy)));
      result := FillMedia(result, legacy.media);
      result := result.(forwardContent := legacy.fullText);
      result := result.(language := legacy.lang);
    } else {
      var tweet := tweetData.raw.value;
      node := tweet;
      var legacy := tweet.legacy.value;
      result := result.(author := Some(AuthorOf(tweet.user.value)));
      result := result.(tweetText := legacy.fullText);
      result := result.(tweetDate := legacy.createdAt);
      result := result.(tweetStats := Some(StatsOf(legacy)));
      result := FillMedia(result, legacy.media);
      result := result.(isNoteTweet := tweet.noteResults.Some?);
      if result.isNoteTweet {
        result := result.(fullNoteText := tweet.noteResults.value.result.value);
      }
      result := result.(language := legacy.lang);
    }
    assert node == Examined(file);
    assert result == AnalysisOf(file).value.(tweetType := "");
    result := result.(tweetType := GetTweetType(result));
    return Some(result);
  }

  /** The media part of `analyzeTweet`: `hasMedia`, then the type of the first item and the matching URL list. */
  method FillMedia(result: Analysis, media: Option<seq<Media>>) returns (r: Analysis)
    requires result.mediaType.None? && result.imgUrls.None? && result.videoUrls.None? && result.gifUrls.None?
    ensures MediaOf(r) == MediaSummary(media)
    ensures r == result.(hasMedia := r.hasMedia, mediaType := r.mediaType, imgUrls := r.imgUrls,
                         videoUrls := r.videoUrls, gifUrls := r.gifUrls)
  {
    r := result.(hasMedia := media.Some? && |media.value| > 0);
    if r.hasMedia {
      r := r.(mediaType := media.value[0].mediaType);
      if r.mediaType == Some(Photo) {
        r := r.(imgUrls := Some(Urls(media.value)));
      } else if r.mediaType == Some(Video) {
        r := r.(videoUrls := Some(Urls(media.value)));
      } else if r.mediaType == Some(AnimatedGif) {
        r := r.(gifUrls := Some(Urls(media.value)));
      } else {
        r := r.(mediaType := Some(UnknownMedia));
      }
    }
  }

  // ---------------------------------------------------------------------------
  // main: which files are read, and where each analysis is written

  const JsonSuffix := ".json"
  const AnalyzeSuffix := "-analyze.json"

  /** A file `main` analyses: a ".json" file that is not itself an analysis. */
  predicate IsAnalysisInput(file: string) {
    EndsWith(file, JsonSuffix) && !EndsWith(file, AnalyzeSuffix)
  }

  function IsInput(): string -> bool {
    f => IsAnalysisInput(f)
  }

  /** The output name: the first ".json" removed, then "-analyze.json" appended. */
  function OutputName(file: string): (r: string)
    ensures EndsWith(r, AnalyzeSuffix)
  {
    var r := ReplaceFirst(file, JsonSuffix, "") + AnalyzeSuffix;
    assert r[|r| - |AnalyzeSuffix|..] == AnalyzeSuffix;
    r
  }

  /** An output file is never picked up as an input by a later run. */
  lemma OutputIsNeverInput(file: string)
    ensures !IsAnalysisInput(OutputName(file))
  {
  }

  /** Two occurrences of ".json" never overlap: no proper suffix of it starts with '.'. */
  lemma JsonOccurrencesApart(file: string, a: int, b: int)
    requires OccursAt(file, JsonSuffix, a) && OccursAt(file, JsonSuffix, b)
    ensures a < b ==> a + |JsonSuffix| <= b
  {
    CharOfOccurrence(file, JsonSuffix, b, 0);
    forall j | a < j < a + |JsonSuffix| ensures file[j] != '.' {
      CharOfOccurrence(file, JsonSuffix, a, j - a);
    }
  }

  lemma CharOfOccurrence(s: string, k: string, i: int, j: int)
    requires OccursAt(s, k, i) && 0 <= j < |k|
    ensures s[i + j] == k[j]
  {
    assert s[i + j] == s[i..i + |k|][j];
  }

  /** An occurrence that ends before the appended part lies in the prefix. */
  lemma OccurrenceInPrefix(stem: string, tail: string, pat: string, k: int)
    requires OccursAt(stem + tail, pat, k)
    ensures k + |pat| <= |stem| ==> OccursAt(stem, pat, k)
  {
    if k + |pat| <= |stem| {
      assert (stem + tail)[k..k + |pat|] == stem[k..k + |pat|];
    }
  }

  /**
   * Only the first ".json" is removed: a name made of a stem without ".json",
   * then ".json", then anything, keeps that rest (a later ".json" included)
   * before the suffix.
   */
  lemma OutputNameCutsFirstJson(stem: string, rest: string)
    requires forall j :: !OccursAt(stem, JsonSuffix, j)
    ensures OutputName(stem + JsonSuffix + rest) == stem + rest + AnalyzeSuffix
  {
    var file := stem + JsonSuffix + rest;
    assert file == stem + (JsonSuffix + rest);
    assert file[|stem|..|stem| + |JsonSuffix|] == JsonSuffix;
    assert OccursAt(file, JsonSuffix, |stem|);
    var k := FirstIndexOf(file, JsonSuffix);
    assert k.Some? && k.value <= |stem|;
    JsonOccurrencesApart(file, k.value, |stem|);
    OccurrenceInPrefix(stem, JsonSuffix + rest, JsonSuffix, k.value);
    assert k.value == |stem|;
    ReplaceFirstSplices(file, JsonSuffix, "");
    assert file[..|stem|] == stem;
    assert file[|stem| + |JsonSuffix|..] == rest;
  }

  /** A name with one ".json", at its end, is read, and its analysis is its stem followed by "-analyze.json". */
  lemma OutputNameOfPlainFile(stem: string)
    requires forall j :: !OccursAt(stem, JsonSuffix, j)
    requires !EndsWith(stem + JsonSuffix, AnalyzeSuffix)
    ensures IsAnalysisInput(stem + JsonSuffix)
    ensures OutputName(stem + JsonSuffix) == stem + AnalyzeSuffix
  {
    var file := stem + JsonSuffix;
    assert file[|file| - |JsonSuffix|..] == JsonSuffix;
    OutputNameCutsFirstJson(stem, "");
    assert stem + JsonSuffix + "" == file && stem + "" == stem;
  }

  /**
   * Two selected names can share an output name: ".json" is removed only at its
   * first occurrence, so a later write to that name replaces an earlier one.
   */
  lemma OutputNamesCollide(stem: string, rest: string)
    requires forall j :: !OccursAt(stem, JsonSuffix, j)
    requires forall j :: !OccursAt(stem + rest, JsonSuffix, j)
    ensures OutputName(stem + JsonSuffix + rest + JsonSuffix) == OutputName(stem + rest + JsonSuffix + JsonSuffix)
  {
    OutputNameCutsFirstJson(stem, rest + JsonSuffix);
    assert stem + JsonSuffix + rest + JsonSuffix == stem + JsonSuffix + (rest + JsonSuffix);
    OutputNameCutsFirstJson(stem + rest, JsonSuffix);
    assert stem + rest + JsonSuffix + JsonSuffix == (stem + rest) + JsonSuffix + JsonSuffix;
  }

  /** The files `main` picks, in directory order. */
  function SelectedFiles(files: seq<string>): (r: seq<string>)
    ensures forall f :: f in r <==> f in files && IsAnalysisInput(f)
  {
    FilterMembershipAll(files, IsInput());
    Filter(files, IsInput())
  }

  /** A written analysis: the output name and the result. */
  datatype Output = Output(name: string, analysis: Analysis)

  /** An output written for one of `files`: it comes from a selected file that was analysed. */
  ghost predicate WrittenFor(o: Output, files: seq<string>, read: string -> Option<TweetFile>) {
    exists f :: f in files && !Throws(read(f)) && o.name == OutputName(f)
  }

  /** Some output is named after `file`. */
  predicate HasOutput(outputs: seq<Output>, file: string) {
    exists k :: 0 <= k < |outputs| && outputs[k].name == OutputName(file)
  }

  /** Every output is named as an analysis and comes from one of `files` that was analysed. */
  ghost predicate Sound(outputs: seq<Output>, files: seq<string>, read: string -> Option<TweetFile>) {
    forall k :: 0 <= k < |outputs| ==> !IsAnalysisInput(outputs[k].name) && WrittenFor(outputs[k], files, read)
  }

  /** Each of the first `n` files whose analysis succeeds has an output. */
  ghost predicate Covers(outputs: seq<Output>, files: seq<string>, read: string -> Option<TweetFile>, n: nat) {
    forall j :: 0 <= j < n && j < |files| && !Throws(read(files[j])) ==> HasOutput(outputs, files[j])
  }

  lemma WriteStep(outputs: seq<Output>, files: seq<string>, read: string -> Option<TweetFile>, i: nat, a: Analysis)
    requires i < |files| && !Throws(read(files[i]))
    requires Sound(outputs, files, read) && Covers(outputs, files, read, i)
    ensures Sound(outputs + [Output(OutputName(files[i]), a)], files, read)
    ensures Covers(outputs + [Output(OutputName(files[i]), a)], files, read, i + 1)
  {
    var next := outputs + [Output(OutputName(files[i]), a)];
    OutputIsNeverInput(files[i]);
    assert WrittenFor(next[|outputs|], files, read);
    assert HasOutput(next, files[i]) by { assert next[|outputs|].name == OutputName(files[i]); }
    forall j | 0 <= j < i && !Throws(read(files[j])) ensures HasOutput(next, files[j]) {
      var k :| 0 <= k < |outputs| && outputs[k].name == OutputName(files[j]);
      assert next[k] == outputs[k];
    }
    forall k | 0 <= k < |outputs| ensures next[k] == outputs[k] { }
  }

  /** A file whose analysis succeeds. */
  function Analysable(read: string -> Option<TweetFile>): string -> bool {
    f => !Throws(read(f))
  }

  /** What the loop writes for `files`, in order: one output per file whose analysis is not null. */
  function Written(files: seq<string>, read: string -> Option<TweetFile>): (r: seq<Output>)
    ensures |r| == |Filter(files, Analysable(read))|
    ensures forall k :: 0 <= k < |r| ==>
              var f := Filter(files, Analysable(read))[k];
              r[k] == Output(OutputName(f), AnalysisOf(read(f)).value)
  {
    if files == [] then []
    else
      var f := files[|files| - 1];
      var a := AnalysisOf(read(f));
      var init := Written(files[..|files| - 1], read);
      assert Filter(files, Analysable(read)) == Filter(files[..|files| - 1], Analysable(read)) + (if a.Some? then [f] else []);
      init + (if a.Some? then [Output(OutputName(f), a.value)] else [])
  }

  /** One more file of the loop. */
  lemma WrittenSnoc(files: seq<string>, read: string -> Option<TweetFile>, i: nat)
    requires i < |files|
    ensures var a := AnalysisOf(read(files[i]));
            Written(files[..i + 1], read) == Written(files[..i], read) + (if a.Some? then [Output(OutputName(files[i]), a.value)] else [])
  {
    assert files[..i + 1][..i] == files[..i];
  }

  /** One turn of the directory loop keeps every invariant. */
  lemma LoopStep(outputs: seq<Output>, files: seq<string>, read: string -> Option<TweetFile>, i: nat, result: Option<Analysis>)
    requires i < |files| && result == AnalysisOf(read(files[i]))
    requires Sound(outputs, files, read) && Covers(outputs, files, read, i) && outputs == Written(files[..i], read)
    ensures var next := if result.Some? then outputs + [Output(OutputName(files[i]), result.value)] else outputs;
            Sound(next, files, read) && Covers(next, files, read, i + 1) && next == Written(files[..i + 1], read)
  {
    WrittenSnoc(files, read, i);
    if result.Some? {
      WriteStep(outputs, files, read, i, result.value);
    } else {
      forall j | 0 <= j < i + 1 && j < |files| && !Throws(read(files[j])) ensures HasOutput(outputs, files[j]) {
        assert j < i;
      }
    }
  }

  lemma CoversAll(outputs: seq<Output>, files: seq<string>, read: string -> Option<TweetFile>)
    requires Covers(outputs, files, read, |files|)
    ensures forall f :: f in files && !Throws(read(f)) ==> HasOutput(outputs, f)
  {
    forall f | f in files && !Throws(read(f)) ensures HasOutput(outputs, f) {
      var j :| 0 <= j < |files| && files[j] == f;
    }
  }

  /**
   * `main`'s loop over the directory listing: analyse each selected file
   * (`read` gives its parsed content) and write the result when it is not null.
   */
  method AnalyzeFiles(files: seq<string>, read: string -> Option<TweetFile>) returns (outputs: seq<Output>)
    ensures |outputs| <= |SelectedFiles(files)|
    ensures forall i :: 0 <= i < |outputs| ==> !IsAnalysisInput(outputs[i].name)
    ensures forall i :: 0 <= i < |outputs| ==> WrittenFor(outputs[i], SelectedFiles(files), read)
    ensures forall f :: f in SelectedFiles(files) && !Throws(read(f)) ==> HasOutput(outputs, f)
    ensures outputs == Written(SelectedFiles(files), read)
  {
    var jsonFiles := SelectedFiles(files);
    outputs := [];
    var i := 0;
    while i < |jsonFiles|
      invariant 0 <= i <= |jsonFiles|
      invariant |outputs| <= i
      invariant Sound(outputs, jsonFiles, read) && Covers(outputs, jsonFiles, read, i)
      invariant outputs == Written(jsonFiles[..i], read)
    {
      var file := jsonFiles[i];
      var result := Analyze(read(file));
      var next := if result.Some? then outputs + [Output(OutputName(file), result.value)] else outputs;
      LoopStep(outputs, jsonFiles, read, i, result);
      outputs := next;
      i := i + 1;
    }
    CoversAll(outputs, jsonFiles, read);
    assert jsonFiles[..i] == jsonFiles;
  }
}
