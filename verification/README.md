# TwitterGet ingestion pipeline, in Dafny

This project models the core of TwitterGet, a set of scripts that pull the
timelines of tracked Twitter/X accounts into a Supabase table, and proves
properties of that model.

- **Incremental sync** (`scripts/fetch-user-tweets.ts`). For every account, it
  fetches the latest timeline page. It drops promoted items, items older than
  30 days, reposts and already-stored tweets. It normalises each survivor into
  a tweet record and classifies it; the AI service is asked only when at least
  two images carry a URL and alt text. 'ai_draw' records first go to a drawing
  sink. Every record is saved with a check-then-insert, which counts
  `tweetsAdded` and `errors`.
- **Full-history sync** (`scripts/fetch-user-all-tweets.ts`). This is a
  do-while loop over at most two pages. It drops promoted items and reposts,
  classifies records by their media, skips stored ones, and hands the whole
  accumulated list to the store's insert after every page.
- **Offline analyser** (`scripts/analyze_tweet.js`). It reads saved items and
  tells reposts from originals. It extracts the author, text and media, and
  types the item with an ordered rule table. It selects its input files and
  names its output files.
- **AI service client** (`scripts/ai-service.ts`). This covers:
  - configuration defaults and URL normalisation;
  - the chat request and how its reply is read;
  - the defaults of the JSON helpers;
  - the 1000-character fallback chunker.

## How the model is built

**Outside calls are inputs.** The Twitter client, Supabase, the AI service, the
drawing sink, the clock and `JSON.parse` are replaced by oracles: total
functions collected in a `World` value (`IncrementalFetch.World`,
`FullHistoryFetch.World`), or passed as function parameters.

**Raw items.** A raw timeline item (`RawItems.RawItem`) has one optional field
per lodash path the scripts read. JavaScript's `a || b`, truthiness,
`startsWith`, `includes`, first-occurrence `replace` and `toLowerCase` are
written out in `JsStrings`.

**State and loops follow the source.**
- Each script's mutable run state is a class:
  - `IncrementalFetch.Ingestion` holds the stored ids, the inserted rows, the
    lookup log and the two counters;
  - `FullHistoryFetch.FullHistorySync` holds the stored ids, the requests made,
    the inserted batches and `tweetsCollected`.
- The source's loops are methods with invariants. Each method is proved equal
  to a specification function: `ProcessAccounts`, `FilterExisting`, `Run`,
  `Chunks` and so on.
- The properties are lemmas about those functions, for example:
  - the store and `tweetsAdded` stay in step;
  - at most two pages are fetched;
  - every inserted batch repeats the earlier ones.

The model follows the code, including these behaviours a reader may not expect:
- **Media fallback.** Media are read from the legacy-wrapped path only when the
  direct path holds a JSON `null`. When the direct path is missing, `get(..., [])`
  returns a truthy `[]` (`Normalize.DualSchema`, `Normalize.NullDirectMediaFallsBack`).
- **Video variants.** A video's variant must have content type "video/mp4", not
  just a video type.
- **Counters.** A duplicate that is skipped changes no counter.
- **Failed timeline calls.** A timeline call that throws in the incremental
  script yields no tweets and counts no error.
- **Full-history insert.** A failed insert there rethrows out of the fetch
  instead of being counted.

## Model

| member | source | states |
|---|---|---|
| `JsStrings.Or` | scripts/fetch-user-tweets.ts:205-208 | JavaScript's `or` of two optional strings is the first operand when it is a non-empty string, else the second; the result is truthy iff either operand is |
| `JsStrings.ContainsAt` | scripts/analyze_tweet.js:137 | `includes` holds iff the keyword occurs at some position of the text |
| `JsStrings.FirstIndexOf` | scripts/analyze_tweet.js:181 | the index found is an occurrence and no earlier position is one; none is found iff there is no occurrence |
| `JsStrings.ReplaceFirstSplices` | scripts/analyze_tweet.js:181 | `replace` with a string pattern splices the replacement in place of the first occurrence only, and is the identity when there is none |
| `JsStrings.ReplaceAtFirst` | scripts/analyze_tweet.js:181 | given the first occurrence at `k`, `replace` keeps the text before `k` and after the pattern |
| `JsStrings.ReplaceWithoutOccurrence` | scripts/analyze_tweet.js:181 | `replace` leaves a text without the pattern unchanged |
| `JsStrings.ToLower` | scripts/analyze_tweet.js:143 | `toLowerCase` keeps the length, leaves no ASCII capital in the result and keeps every character that is not one |
| `JsStrings.ToLowerIdempotent` | scripts/analyze_tweet.js:143 | lower-casing a lower-cased text changes nothing |
| `JsStrings.NatToString` | scripts/fetch-user-tweets.ts:141-143 | the printed image number is a non-empty string of decimal digits, without a leading zero, whose value is the number itself |
| `Seqs.Filter` | scripts/fetch-user-tweets.ts:312-314 | `Array.prototype.filter` returns no more elements than it is given, each satisfying the predicate |
| `Seqs.FilterIsSubsequence` | scripts/fetch-user-tweets.ts:312-314 | the result of a filter is an order-preserving subsequence of its input |
| `Seqs.FilterMembership` | scripts/fetch-user-tweets.ts:312-314 | an element survives a filter iff it is in the input and satisfies the predicate |
| `Seqs.FilterFilter` | scripts/fetch-user-tweets.ts:312-317 | filtering by one predicate and then another equals filtering once by their conjunction |
| `Json.Get` | scripts/ai-service.ts:165 | `v?.key` is defined iff `v` is an object holding the key, and is then that key's value |
| `RawItems.TweetId` | scripts/fetch-user-tweets.ts:205-208 | the id is the first non-empty of idStr, `tweet.rest_id`, `tweet.legacy.id_str`, in that order; it resolves iff one of them is non-empty |
| `RawItems.FullText` | scripts/fetch-user-tweets.ts:456-458 | the text is the direct path's when non-empty, else the legacy-wrapped path's when non-empty, else '' |
| `RawItems.CreatedAt` | scripts/fetch-user-tweets.ts:333-335 | the creation time is the direct path's when non-empty, else the legacy-wrapped path's value |
| `RawItems.MediaItems` | scripts/fetch-user-tweets.ts:428-430 | the media list is the direct-path array when there is one, [] when that path is missing, and the legacy-wrapped list only when the direct path holds `null` |
| `Filters.IncrementalFilter` | scripts/fetch-user-tweets.ts:310-353 | the three synchronous stages keep exactly the items that are not promoted, not stale and not reposts, in their original order |
| `Filters.FullHistoryFilter` | scripts/fetch-user-all-tweets.ts:140-166 | the full-history chain keeps exactly the non-promoted non-reposts, in order, and has no age stage |
| `Filters.AgeBoundary` | scripts/fetch-user-tweets.ts:332-341 | an item without creation time, or exactly 30 days old, is kept; one 31 days old is dropped |
| `Filters.RepostScenario` | scripts/fetch-user-tweets.ts:344-353 | an item whose text is "RT @alice: hello" survives neither chain |
| `Normalize.TweetUrlRoundTrip` | scripts/fetch-user-tweets.ts:410 | the status URL gives back the screen name and the tweet id |
| `Normalize.Images` | scripts/fetch-user-tweets.ts:432-440 | the images are exactly the photo attachments, in order, each as `{url, alt}` |
| `Normalize.BestMp4` | scripts/fetch-user-tweets.ts:448-451 | the chosen variant is an MP4 with the highest bitrate (missing bitrate is 0), the first such after the stable sort; none iff there is no MP4 |
| `Normalize.VideoUrl` | scripts/fetch-user-tweets.ts:447-453 | a video's URL is the URL of its best MP4: the highest bitrate, the first of those in variant order; none when it has no MP4 |
| `Normalize.BestMp4Unique` | scripts/fetch-user-tweets.ts:448-451 | at most one variant is the best MP4, so the sort's first element is well defined |
| `Normalize.Videos` | scripts/fetch-user-tweets.ts:443-454 | every video URL is the non-empty best-MP4 URL of a video or GIF attachment, and there are at most as many URLs as such attachments |
| `Normalize.VideosInOrder` | scripts/fetch-user-tweets.ts:443-454 | the video URLs are, position by position and in order, the best-MP4 URLs of the video and GIF attachments that have a non-empty one |
| `Normalize.ExtractTweetData` | scripts/fetch-user-tweets.ts:409-475 | the record's URL parses back to the screen name and id; images and videos come from the media list, and are empty when the direct media path is missing; `user.restId` is `runtime_rest_id` in the incremental script and `runtime_rest_id`, else the extracted rest id, in the full-history one; the content type starts as 'unknown' |
| `Normalize.DualSchema` | scripts/fetch-user-tweets.ts:428-462 | the direct and the legacy-wrapped shape of one tweet give the same id, text, creation time and record, except that the legacy-wrapped shape, with nothing at the direct media path, loses its media |
| `Normalize.NullDirectMediaFallsBack` | scripts/fetch-user-tweets.ts:428-430 | a legacy-wrapped item with `null` at the direct media path gives the same record as the direct shape, media included |
| `Classify.AiContentType` | scripts/fetch-user-tweets.ts:159-175 | the content type is never empty; an unconfigured service, a null result, or an empty or missing `content_type` gives 'unknown'; a non-empty string `content_type` is taken as is |
| `Classify.ContentTypeOf` | scripts/fetch-user-tweets.ts:126-176 | without two images having a URL and two having alt text the type is 'post'; the type is never empty |
| `Classify.JudgeContentType` | scripts/fetch-user-tweets.ts:126-176 | the loop builds the prompt and both counts; the service is asked iff the gate passes, and the result is the specified content type |
| `Classify.FewImagesArePosts` | scripts/fetch-user-tweets.ts:153-155 | a tweet with fewer than two images is a 'post' whatever the service says |
| `Classify.DescribedImagesCount` | scripts/fetch-user-tweets.ts:144-149 | when every image has a URL and alt text, both counts equal the number of images |
| `Classify.DescribedImagesAskService` | scripts/fetch-user-tweets.ts:153-171 | two or more fully described images send the full prompt to the service and take its answer |
| `Classify.MissingAltIsPost` | scripts/fetch-user-tweets.ts:143-155 | two images with URLs but only one alt text keep the tweet a 'post' |
| `AiService.ParseInt` | scripts/ai-service.ts:53 | `parseInt` is NaN iff no digit follows the optional sign |
| `AiService.ParseIntOfNatToString` | scripts/ai-service.ts:53 | `parseInt` reads the decimal printing of any non-negative integer back as that integer |
| `AiService.DefaultTimeoutParses` | scripts/ai-service.ts:53 | the default timeout '120' parses to 120 |
| `AiService.ResolveConfig` | scripts/ai-service.ts:42-53 | configuration fails iff the URL or the token resolves to empty, the URL being checked first; on success the URL and the token are the argument when non-empty, else the environment variable; the model is the argument, else the environment variable, else gpt-3.5-turbo; the timeout is the argument when set and non-zero, else `parseInt` of the non-empty environment variable, else 120 |
| `AiService.StripTrailingSlashes` | scripts/ai-service.ts:57 | the result is a prefix of the URL, only '/' characters were removed, and it does not end in '/' |
| `AiService.NormalizeUrl` | scripts/ai-service.ts:56-59 | the normalised URL ends in "/v1"; it is the URL without trailing slashes, with "/v1" appended exactly when that URL does not already end in "/v1" |
| `AiService.NormalizeUrlIdempotent` | scripts/ai-service.ts:56-59 | normalising twice equals normalising once |
| `AiService.ReadReply` | scripts/ai-service.ts:112-134 | a reply yields text iff it is a 200 response with choices; the text is the first choice's content when non-empty, else ''; a rejected response throws an HTTP error with its status, a timeout the timeout error |
| `AiService.AIService.constructor` | scripts/ai-service.ts:35-60 | the service keeps the resolved token, model and timeout and the normalised URL |
| `AiService.AIService.Create` | scripts/ai-service.ts:35-60 | `new AIService` throws exactly the configuration error of the resolution, else holds the resolved settings with the normalised URL |
| `AiService.AIService.BuildRequest` | scripts/ai-service.ts:71-106 | the request goes to `<url>/chat/completions` with the bearer token; the messages are the system prompt then one user message per input, in order; `max_tokens` only when set; the JSON format only when asked; the timeout times 1000 |
| `AiService.AIService.ChatCompletion` | scripts/ai-service.ts:65-136 | the request sent has the assembled messages, and the result is the reading of the server's reply to it |
| `AiService.AIService.AttemptGetJsonResult` | scripts/ai-service.ts:141-149 | the request sent is a JSON-format one to the completions URL with the system prompt and the one content message; the result is the parse of that request's reply when it succeeds, and null otherwise |
| `AiService.ContentTypeAnalysis` | scripts/ai-service.ts:202-213 | a truthy result is returned as is; otherwise the default analysis: content type 'unknown', reason '分析失败', score 0 |
| `AiService.GenerateTitleByContent` | scripts/ai-service.ts:162-165 | the `title` field when truthy, else '' (also when the attempt failed) |
| `AiService.GenerateTagsByContent` | scripts/ai-service.ts:170-173 | the `tags` field when truthy, else [] (also when the attempt failed) |
| `AiService.Chunks` | scripts/ai-service.ts:189-194 | the chunks concatenate back to the text; each is 1 to 1000 characters long and all but the last exactly 1000; empty text gives no chunk |
| `AiService.CutIntoChunks` | scripts/ai-service.ts:189-194 | the chunking loop produces exactly the specified chunks |
| `AiService.SplitLongText` | scripts/ai-service.ts:185-197 | the service's `text` field when truthy, else the text cut into 1000-character chunks |
| `IncrementalFetch.GetUserTweets` | scripts/fetch-user-tweets.ts:280-307 | a failed call or a response without a body gives no tweets; otherwise the page's items |
| `IncrementalFetch.FilterExistingKeepsNew` | scripts/fetch-user-tweets.ts:179-217 | the existence stage keeps exactly the items with an id that is not stored or whose lookup failed, in order; it logs one lookup per item with an id and counts each failed lookup as one error |
| `IncrementalFetch.SyncFilterKeeps` | scripts/fetch-user-tweets.ts:310-321 | `filterTweets` keeps exactly the items passing all four stages, in their original order; the store is asked only about items that passed the first three; only the lookup log and `errors` change |
| `IncrementalFetch.RowOf` | scripts/fetch-user-tweets.ts:528-539 | the inserted row carries the tweet id and the rest id, and its content type is never empty ('unknown' by default) |
| `IncrementalFetch.SaveTweetEffect` | scripts/fetch-user-tweets.ts:512-550 | a row is inserted and `tweetsAdded` grows by one exactly when the id is absent and both queries succeed; a stored id changes nothing; a failure changes only `errors`, by one |
| `IncrementalFetch.SaveTwiceIsSaveOnce` | scripts/fetch-user-tweets.ts:512-550 | saving a record again changes nothing when the store answers |
| `IncrementalFetch.SaveRestId` | scripts/fetch-user-tweets.ts:481 | the rest id is the top-level one when set, else `user.restId`; it is empty iff both are |
| `IncrementalFetch.SaveRecord` | scripts/fetch-user-tweets.ts:478-490 | records with an empty screen name or rest id leave the state unchanged; the others go through the check-then-insert |
| `IncrementalFetch.HandleAiDrawTweet` | scripts/fetch-user-tweets.ts:493-509 | the sink succeeds iff it answers status 200; it throws iff the POST fails or its body is not JSON |
| `IncrementalFetch.Classified` | scripts/fetch-user-tweets.ts:381-388 | the classified record keeps the resolved id and screen name and carries the content type `judgeContentType` gives |
| `IncrementalFetch.Decide` | scripts/fetch-user-tweets.ts:356-406 | an item without screen name or id is skipped; a save is of the classified record; an error is counted only for an 'ai_draw' record whose sink call threw |
| `IncrementalFetch.DecideRecord` | scripts/fetch-user-tweets.ts:390-400 | a non-'ai_draw' record is saved; an 'ai_draw' record is dropped iff the sink answers a status other than 200, and counts an error iff the sink throws |
| `IncrementalFetch.UnidentifiedIsSkipped` | scripts/fetch-user-tweets.ts:370-378 | an item without screen name or id changes nothing |
| `IncrementalFetch.RejectedDrawingIsNotSaved` | scripts/fetch-user-tweets.ts:391-397 | an 'ai_draw' record the sink answers with a non-200 status changes nothing |
| `IncrementalFetch.SaveTweetKeepsConsistent` | scripts/fetch-user-tweets.ts:512-550 | a save keeps the store, the inserted rows and `tweetsAdded` in step |
| `IncrementalFetch.ProcessItemKeepsConsistent` | scripts/fetch-user-tweets.ts:356-406 | processing one item keeps the store, the inserted rows and `tweetsAdded` in step |
| `IncrementalFetch.ProcessItemsKeepsConsistent` | scripts/fetch-user-tweets.ts:261-264 | processing an account's filtered items keeps the store and the counter in step |
| `IncrementalFetch.ProcessAccountKeepsConsistent` | scripts/fetch-user-tweets.ts:232-274 | one account's turn keeps the store and the counter in step |
| `IncrementalFetch.ProcessAccountsKeepsConsistent` | scripts/fetch-user-tweets.ts:220-277 | the whole account loop keeps the store and the counter in step |
| `IncrementalFetch.TweetsAddedCountsNewIds` | scripts/fetch-user-tweets.ts:220-277 | over a whole run, `tweetsAdded` equals the number of ids the store gained, no tweet is inserted twice and no stored tweet again |
| `IncrementalFetch.Ingestion.constructor` | scripts/fetch-user-tweets.ts:49-52 | a run starts on the stored ids with empty logs and both counters at zero |
| `IncrementalFetch.Ingestion.CheckTweetExists` | scripts/fetch-user-tweets.ts:179-199 | the lookup is logged; a failed query counts an error and answers "absent"; otherwise it answers whether the id is stored |
| `IncrementalFetch.Ingestion.FilterExistingTweets` | scripts/fetch-user-tweets.ts:202-217 | the loop's kept items and new state are those of the existence stage |
| `IncrementalFetch.Ingestion.FilterTweets` | scripts/fetch-user-tweets.ts:310-321 | the kept items and new state are those of the four-stage filter |
| `IncrementalFetch.Ingestion.SaveTweetToSupabase` | scripts/fetch-user-tweets.ts:512-550 | the new state is that of the check-then-insert |
| `IncrementalFetch.Ingestion.SaveToSupabase` | scripts/fetch-user-tweets.ts:478-490 | the new state is that of the guarded save |
| `IncrementalFetch.Ingestion.ClassifyTweet` | scripts/fetch-user-tweets.ts:381-388 | the record built is the extracted record with its judged content type |
| `IncrementalFetch.Ingestion.ProcessTweet` | scripts/fetch-user-tweets.ts:356-406 | the new state is that of processing the item |
| `IncrementalFetch.Ingestion.ProcessRecord` | scripts/fetch-user-tweets.ts:390-400 | the new state is that of the sink gate and the save on the classified record |
| `IncrementalFetch.Ingestion.ProcessUserTweets` | scripts/fetch-user-tweets.ts:261-264 | each kept item, tagged with the account id, is processed in order |
| `IncrementalFetch.Ingestion.ProcessUser` | scripts/fetch-user-tweets.ts:237-264 | an account without id or tweets changes nothing; otherwise fetch, filter and process |
| `IncrementalFetch.Ingestion.ProcessAllUsers` | scripts/fetch-user-tweets.ts:220-277 | the new state is that of the account loop, whose invariants the lemmas above prove |
| `FullHistoryFetch.GetUserTweets` | scripts/fetch-user-all-tweets.ts:169-224 | a failed call or an empty response gives no tweets and no cursor; otherwise the page's items and its bottom cursor |
| `FullHistoryFetch.CursorParam` | scripts/fetch-user-all-tweets.ts:179-181 | the cursor is sent iff it is a non-empty string |
| `FullHistoryFetch.MediaRuleType` | scripts/fetch-user-all-tweets.ts:352-360 | 'post_with_media' iff there are images, 'post_with_video' iff no images but videos, 'post' iff neither |
| `FullHistoryFetch.ProcessTweet` | scripts/fetch-user-all-tweets.ts:318-377 | null iff the screen name or the id is missing; otherwise the record of that id and screen name, typed by its media, with `runtime_rest_id` as `user.restId` when set |
| `FullHistoryFetch.RowOf` | scripts/fetch-user-all-tweets.ts:403-412 | the row keeps the id, `user.restId`, images and videos, with content type 'unknown' by default |
| `FullHistoryFetch.Rows` | scripts/fetch-user-all-tweets.ts:403-412 | one row per record, in order |
| `FullHistoryFetch.RowsCarryAccount` | scripts/fetch-user-all-tweets.ts:463-464 | a record of the account being synced is saved under that account's id |
| `FullHistoryFetch.CollectPage` | scripts/fetch-user-all-tweets.ts:462-473 | a page only appends records and counts each appended one once; nothing else changes |
| `FullHistoryFetch.Step` | scripts/fetch-user-all-tweets.ts:441-497 | each pass makes one call, with the current cursor, and counts one page; records are only appended, each counted once |
| `FullHistoryFetch.SaveCollected` | scripts/fetch-user-all-tweets.ts:484-487 | the save leaves the collected records, the count and the cursor unchanged |
| `FullHistoryFetch.RunIsBounded` | scripts/fetch-user-all-tweets.ts:436-497 | the loop makes at least one and at most two calls, one per page |
| `FullHistoryFetch.AtMostTwoCalls` | scripts/fetch-user-all-tweets.ts:439-497 | a whole fetch makes one or two timeline calls |
| `FullHistoryFetch.EmptyFirstPageStops` | scripts/fetch-user-all-tweets.ts:450-453 | an empty first page ends the fetch after one call with nothing collected or saved |
| `FullHistoryFetch.MissingCursorStops` | scripts/fetch-user-all-tweets.ts:490-497 | a first page without cursor ends the fetch after one call |
| `FullHistoryFetch.CursorAbcThenNone` | scripts/fetch-user-all-tweets.ts:441-497 | cursor "abc" then no cursor gives exactly two calls, the second with "abc" |
| `FullHistoryFetch.RunKeepsPrefixes` | scripts/fetch-user-all-tweets.ts:484-487 | every inserted batch is a prefix of each later batch and of the final list |
| `FullHistoryFetch.FetchCountsAndResaves` | scripts/fetch-user-all-tweets.ts:462-487 | over a whole fetch `tweetsCollected` is the number of collected records, and each insert repeats all the earlier records |
| `FullHistoryFetch.RunCollects` | scripts/fetch-user-all-tweets.ts:462-472 | the loop only appends records and counts each appended one once |
| `FullHistoryFetch.FullHistorySync.constructor` | scripts/fetch-user-all-tweets.ts:53-56 | a fetch starts on the stored ids, no calls, no batches, no collected tweets |
| `FullHistoryFetch.FullHistorySync.CheckTweetExists` | scripts/fetch-user-all-tweets.ts:380-398 | a tweet is reported as present only when its id is stored; a failed query answers "absent" and counts nothing |
| `FullHistoryFetch.FullHistorySync.SaveTweetsToSupabase` | scripts/fetch-user-all-tweets.ts:401-428 | one insert of every record's row; on failure it throws and nothing is stored, otherwise the ids and the batch are added |
| `FullHistoryFetch.FullHistorySync.CollectTweet` | scripts/fetch-user-all-tweets.ts:464-472 | a record is appended and counted unless it is null or already stored |
| `FullHistoryFetch.FullHistorySync.CollectTweets` | scripts/fetch-user-all-tweets.ts:462-473 | the inner loop's effect is that of collecting the page |
| `FullHistoryFetch.FullHistorySync.SaveAll` | scripts/fetch-user-all-tweets.ts:484-487 | the end of a pass saves the accumulated list when it is not empty |
| `FullHistoryFetch.FullHistorySync.FetchPage` | scripts/fetch-user-all-tweets.ts:441-487 | one pass's effect is that of the specified step |
| `FullHistoryFetch.FullHistorySync.FetchAllUserTweets` | scripts/fetch-user-all-tweets.ts:432-516 | the do-while's result and effect are those of the specified run, whose bounds and prefix property the lemmas above prove |
| `AnalyzeTweet.GetTweetType` | scripts/analyze_tweet.js:125-148 | each of the five types is returned iff its rule matches and no earlier rule does: note, media, case-sensitive announcement keyword, case-insensitive AI keyword, regular |
| `AnalyzeTweet.AiInAnyCaseIsAiRelated` | scripts/analyze_tweet.js:142-145 | any text containing "ai" in any case that reaches the AI rule is AI related |
| `AnalyzeTweet.SaidIsAiRelated` | scripts/analyze_tweet.js:136-145 | a plain item whose text is "said" is AI related |
| `AnalyzeTweet.Urls` | scripts/analyze_tweet.js:44 | one URL per media item, in order |
| `AnalyzeTweet.MediaSummary` | scripts/analyze_tweet.js:36-52 | media are present iff the list is non-empty; the first item's type decides; photo, video and animated_gif list every item's URL in their own field; any other type becomes "unknown" with no list |
| `AnalyzeTweet.Examined` | scripts/analyze_tweet.js:17-18 | the examined tweet has an author and a `legacy` object |
| `AnalyzeTweet.Analyze` | scripts/analyze_tweet.js:4-122 | the analysis built field by field is `AnalysisOf` of the file |
| `AnalyzeTweet.AnalysisOf` | scripts/analyze_tweet.js:4-122 | null iff reading the file or a property throws; `isRetweet` iff the text starts with "RT @"; in the repost branch the original author, text, date and counts of the reposted tweet fill the original-tweet fields and `forwardContent`, otherwise the item's own fill the author fields; the repost branch is never a note, a note's text is `fullNoteText`; the media fields, language and type follow the examined tweet |
| `AnalyzeTweet.FillMedia` | scripts/analyze_tweet.js:85-101 | the media fields become the media summary and no other field changes |
| `AnalyzeTweet.OutputName` | scripts/analyze_tweet.js:181 | the output name ends in "-analyze.json" |
| `AnalyzeTweet.OutputIsNeverInput` | scripts/analyze_tweet.js:163-181 | an output file is never selected as an input |
| `AnalyzeTweet.OutputNameCutsFirstJson` | scripts/analyze_tweet.js:181 | only the first ".json" is removed; the rest of the name, a later ".json" included, is kept before the suffix |
| `AnalyzeTweet.OutputNamesCollide` | scripts/analyze_tweet.js:181 | two different inputs can write to one output name, for example "x.jsonb.json" and "xb.json.json" both to "xb.json-analyze.json" |
| `AnalyzeTweet.OutputNameOfPlainFile` | scripts/analyze_tweet.js:163-181 | a name with a single ".json", at its end, is selected, and its output is its stem followed by "-analyze.json" |
| `AnalyzeTweet.SelectedFiles` | scripts/analyze_tweet.js:163 | a file is selected iff it is listed, ends in ".json" and does not end in "-analyze.json" |
| `AnalyzeTweet.AnalyzeFiles` | scripts/analyze_tweet.js:151-193 | the sequence of writes is, in directory order, one per selected file whose analysis is not null, named by `OutputName` and holding `AnalysisOf` of the file (`Written`); no output is an input; every selected file whose analysis succeeds has a write named after it |
| `AnalyzeTweet.Written` | scripts/analyze_tweet.js:173-189 | the k-th output is named after, and holds the analysis of, the k-th file whose analysis succeeds |

## Left out

- Network and storage calls: Twitter client, Supabase queries and inserts,
  axios, `fetch`, the file system. Each becomes an oracle: a function in the
  `World` value, or a parameter.
- Logging, `debugObject`, `printStats`, and the `setTimeout` delays between
  accounts and pages. None has an effect on the modelled state.
- Environment and command-line handling. This covers `dotenv`, the Supabase
  credential check with `process.exit`, the `main` functions, the analyser's
  directory argument and its existence check. It also covers
  `getUsersFromDatabase` and `getUserId`; the account list is a parameter.
- `scripts/refresh-users.ts`, `scripts/index.ts` and
  `scripts/ai-service-prompts.ts` are not part of this model. They are I/O,
  or string constants; prompts are passed as strings.
- `AIService.codeReview`, `generateAiDrawDescTextByPrompt`,
  `socialShareRewrite`, `testAIService`. Each is a one-line call of
  `chatCompletion` or `attemptGetJsonResult` with a fixed prompt, and none is
  used by the pipeline.
- Floating point. The `temperature` (0.7), `content_type_score` and elapsed
  times are not modelled. JSON numbers are integers.
- `JSON.parse`, and the string form of an error body, are an oracle.
  `AiService.AIService.AttemptGetJsonResult` and `AiService.ReadReply` do not
  model the error message texts.
- AiService.ParseInt: leading whitespace and the hexadecimal prefix are not
  modelled. Only the default "120" and decimal strings matter here.
- Dates. `dayjs` day differences are an oracle `dayDiff` (NaN is `None`), and
  `new Date(...)` in the analyser keeps the raw date string.
- Text encoding. Strings are sequences of characters, not UTF-16 code units.
  `toLowerCase` maps only ASCII letters.
- A JSON `null` at the legacy-wrapped media path is not modelled. With `null`
  at the direct path as well, `.filter` would throw. A `null` at the direct path
  alone is modelled: it lets the legacy-wrapped media through.
- `PGRST116` (no rows) is the model's ordinary "absent" answer. A `.single()`
  lookup of an id stored in several rows, which the source answers "absent"
  without counting an error, is not modelled: the store is a set of ids.
- Oracles are deterministic functions. The same question within one run gets
  the same answer.
- The full-history `judgeContentType` (scripts/fetch-user-all-tweets.ts:86-137)
  is never called by that script.
- The image branch for plain-string images in `judgeContentType`. Records
  always carry `{url, alt}` objects.
- The `errors` counter of the full-history script. In the model no path can
  increment it: the code that does is guarded by exceptions the modelled calls
  never raise.
- The exceptions a Supabase call may throw inside `processTweet` of the
  incremental script. A failed query is modelled as an error answer instead.
- The directory after the analyser's run. The model gives the sequence of
  writes; when two inputs share an output name (`AnalyzeTweet.OutputNamesCollide`)
  the later write replaces the earlier file.
- A failed write of an analysis file. In the source it aborts the rest of the
  directory loop.
- Classify.AiContentType: a non-string `content_type` gives 'unknown' in the
  model instead of that JSON value.
- AnalyzeTweet.Analyze: `hasMedia` and `isNoteTweet` are booleans, not the
  exact truthy value (`undefined`, an array, an object) the source stores.
  `isVerified` is `isBlueVerified == true` rather than its raw truthy value.
- Concurrency and atomicity of check-then-insert. The scripts are sequential,
  and the model is too.
