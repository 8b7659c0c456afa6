# hpoi-info-tgbot, modelled in Dafny

This project models the announcement pipeline of hpoi-info-tgbot. The bot reads the latest information feed of hpoi.net and skips the entries it published in the last seven days. It fetches the tags of every other entry, posts it to a Telegram channel, and writes a row to its SQLite table `published_records`. All of this logic is in `src/entry.ts`. The model has one Dafny module per component of that file:

- `JsStrings` (js_strings.dfy): the JavaScript string primitives the code relies on. These are the `\s` class, `trim`, `indexOf`, `join` and `split`.
- `Hashtag` (hashtag.dfy): `escape_telegram_hashtag`, and the map/filter chain at the end of `fetch_tags`. That chain turns the label texts of an item's info table into hashtags.
- `Listing` (listing.dfy): the per-entry mapping of `fetch_data` and its final `reverse`. The mapping builds the id, the site-prefixed link, the trimmed texts and the image URL without its query string.
- `Records` (records.dfy): `get_timestamp`, the existence query and the insert of the dedup table. The table is a class whose `rows` sequence only ever grows.
- `Telegram` (telegram.dfy): the Bot API, as a class that logs every POST and answers through an oracle. Also `publish_info_to_telegram`, with its photo-then-text fallback.
- `Pipeline` (pipeline.dfy): the `for` loop of `main`. It is written twice: as an imperative method over the table and the bot, and as a pure fold (`Step`, `RunItems`) that the method is proved against. The lemmas about the loop are stated on the fold.

Things the model takes as parameters:
- the clock reading `nowMs`, the value of `new Date().getTime()`;
- the mode (`NODE_ENV`: production, test, or anything else);
- the chat ids;
- the label texts that a detail page yields for an id (`None` when the request fails);
- the Bot API's answer to each call, as a function of the calls made so far;
- whether SQLite reports an error for a statement (the existence query or the insert), as a function of the statement and the table it runs on;
- the letter class `\pL`, as a predicate `isLetter`.

Some behaviour of the code is easy to misread. The model follows the code:
- The dedup window is strict (`publish_timestamp > now - 604800`). A row exactly seven days old no longer suppresses a new post (`Records.WindowBoundary`).
- In production, `post_count` grows by 1 for every item that was not deduplicated, even when the publisher skipped that item (`Pipeline.ProductionCountsRecords`).
- `publish_info_to_telegram` only returns 0 or 1, so the `< 0` checks in `main` can never fire. The model keeps those branches, and `Pipeline.PublishProceeds` shows that they are dead.
- If the fallback `sendMessage` fails, its error is not caught. It ends the whole run, and the item gets no row. A failed tag fetch also ends the run, and so does an error reported by the existence query or by the insert (`Pipeline.StepFaultWritesNoRow`).
- An insert that fails after the publications went through leaves the item posted but without a row, so a later run posts it again (`Pipeline.FailedInsertKeepsPosts`).
- Rows are written in every mode. Outside production nothing is published and `post_count` stays 0 (`Pipeline.NonProductionPublishesNothing`).
- When a link path has no digit, the id is `Number(null)`, which is 0.
- The chat choices `is_prod ? publish_channel_id : bot_owner_id` and `is_prod ? publish_sub_channel_id : bot_owner_id` sit inside `if (is_prod)`, so their `bot_owner_id` branch can never be taken. `Pipeline.PrimaryChannel` and `Pipeline.SecondaryChannel` keep that dead branch as written.

## Model

| member | source | states |
|---|---|---|
| `JsStrings.IsJsSpace` | src/entry.ts:103-105 | definition of the `\s` class (ECMAScript white space and line terminators), which is also what `trim` removes; stated by `TrimStart`, `TrimEnd`, `Trim` and `Hashtag.NormaliseLabelNoSpace` |
| `JsStrings.TrimStart` | src/entry.ts:147 | the result is a suffix of the input, only white space was dropped, and it does not start with white space |
| `JsStrings.TrimEnd` | src/entry.ts:147 | the result is a prefix of the input, only white space was dropped, and it does not end with white space |
| `JsStrings.Trim` | src/entry.ts:103-105 | `trim()` yields the slice of the input that starts and ends with a non-space character, with only white space outside it |
| `JsStrings.IndexOf` | src/entry.ts:110 | `indexOf('?')` is -1 exactly when there is no `?`, and otherwise it is the first index holding one |
| `JsStrings.SpacesToUnderscores` | src/entry.ts:148 | definition of `replace(/\s/g, '_')`: every white-space character becomes `_`; its effect on the tags is stated by `Hashtag.NormaliseLabelNoSpace` |
| `JsStrings.Join` | src/entry.ts:161 | definition of `tags.join(' ')`; its partner is `Split`, in `JsStrings.SplitJoin` |
| `JsStrings.Split` | src/entry.ts:111 | definition of `split` on one separator character; stated by `SplitFirstPiece` and `SplitJoin` |
| `JsStrings.SplitFirstPiece` | src/entry.ts:111 | the first piece of `split('?')` is the text before the first `?` |
| `JsStrings.SplitJoin` | src/entry.ts:161 | pieces without the separator, joined with it and split again, give back the same pieces |
| `Hashtag.IsRatio` | src/entry.ts:127 | definition of `/^\d+\/\d+$/.test(text)`: ASCII digits, one `/`, ASCII digits; stated by `SlashOfRatio`, `EscapeRatio` and `EscapedIsNoRatio` |
| `Hashtag.EscapeHashtag` | src/entry.ts:125-132 | definition of `escape_telegram_hashtag`; its properties are stated by `EscapeRatio`, `EscapeGeneral`, `EscapeAlphabet`, `EscapeNoSpace`, `EscapedIsNoRatio` and `EscapeIdempotent` |
| `Hashtag.ReplaceFirst` | src/entry.ts:128 | `replace('/', '比')` keeps the length and replaces only the first `/`; a text without `/` is unchanged |
| `Hashtag.SlashOfRatio` | src/entry.ts:127-128 | a text matching `^\d+/\d+$` holds exactly one `/`, at the position the match found |
| `Hashtag.EscapeRatio` | src/entry.ts:126-129 | a ratio keeps its length, its one `/` becomes `比`, and every other character stays |
| `Hashtag.EscapeGeneral` | src/entry.ts:131 | any other text keeps its length; a letter or ASCII digit stays in place and every other character becomes `_` |
| `Hashtag.EscapeAlphabet` | src/entry.ts:125-132 | every output character is a letter, an ASCII digit, `_` or `比` |
| `Hashtag.EscapeAddsNoSpace` | src/entry.ts:125-132 | an input without white space gives an output without white space |
| `Hashtag.EscapeNoSpace` | src/entry.ts:131 | if `\pL` holds of no space character, the output has no white space at all |
| `Hashtag.EscapedIsNoRatio` | src/entry.ts:125-132 | an escaped text never matches the ratio pattern again |
| `Hashtag.EscapeIdempotent` | src/entry.ts:125-132 | escaping twice is the same as escaping once (given that `比` is a letter) |
| `Hashtag.EscapeOneEighth` | src/entry.ts:126-129 | `1/8` becomes `1比8` |
| `Hashtag.EscapeMixedLabel` | src/entry.ts:131 | `PVC 塗装済み完成品` becomes `PVC_塗装済み完成品` |
| `Hashtag.NormaliseLabel` | src/entry.ts:147-149 | definition of the two `map`s applied to each label: `trim`, white space to `_`, then the escape; stated by `NormaliseLabelNoSpace` |
| `Hashtag.Survives` | src/entry.ts:150 | the predicate of the `filter` (the filter itself is `Surviving`): not empty and not `未知`; stated by `SurvivingOrder` and `TagListWellFormed` |
| `Hashtag.Prefixed` | src/entry.ts:151 | definition of the final `map`, which puts `#` before each surviving label; stated by `TagListWellFormed` and `TagListOrder` |
| `Hashtag.TagList` | src/entry.ts:145-151 | definition of the whole chain of `fetch_tags` after the parse; stated by `TagListWellFormed` and `TagListOrder` |
| `Hashtag.NormaliseLabelNoSpace` | src/entry.ts:147-149 | trim, whitespace→`_` and escape together leave no white space |
| `Hashtag.TagListWellFormed` | src/entry.ts:145-151 | every tag starts with `#`, is longer than `#`, is not `#未知`, and has no white space |
| `Hashtag.TagListOrder` | src/entry.ts:145-151 | the tags are `#` + the normalised label at exactly the surviving positions (non-empty and not `未知`), in label order |
| `Hashtag.SurvivingOrder` | src/entry.ts:150 | the filter keeps exactly the surviving elements, in order |
| `Listing.HobbyId` | src/entry.ts:106 | definition of `Number(link_path.match(/\d+/ui))`; stated by `HobbyIdWithoutDigits` and `HobbyIdIsFirstRun` |
| `Listing.ToInfoItem` | src/entry.ts:101-121 | definition of the mapping of one entry; stated by `FetchDataOrder` and `FetchDataLinks` |
| `Listing.FetchData` | src/entry.ts:101-122 | definition of the mapping followed by `reverse`; stated by `FetchDataOrder` and `FetchDataLinks` |
| `Listing.HobbyIdWithoutDigits` | src/entry.ts:106 | a link path without an ASCII digit gives the id 0 |
| `Listing.HobbyIdIsFirstRun` | src/entry.ts:106 | the id is the decimal value of the first maximal run of ASCII digits in the link path |
| `Listing.StripQuery` | src/entry.ts:108-112 | when the first `?` is at an index > 0, the URL becomes `split('?')[0]`, which is the text just before that `?`; otherwise (no `?`, or `?` at index 0) it is unchanged |
| `Listing.MapAt` | src/entry.ts:101 | `map` keeps the length and applies the function at every position |
| `Listing.ReverseAt` | src/entry.ts:122 | `reverse` keeps the length and puts element `k` at position `n-1-k` |
| `Listing.FetchDataOrder` | src/entry.ts:101-122 | one item per entry, in reverse document order, each item being the mapping of its entry |
| `Listing.FetchDataLinks` | src/entry.ts:116 | every link is `https://www.hpoi.net/` followed by the raw `href` of its entry |
| `Records.GetTimestamp` | src/entry.ts:30-33 | the result is the floor of `nowMs / 1000 + offsetDays * 86400` |
| `Records.RecentlyPublished` | src/entry.ts:57-65 | definition of the answer of `check_record_existence` for a table at a time; stated by `PublishedRecords.CheckRecordExistence`, `WindowBoundary`, `FreshRowIsRecent` and `RecentStaysRecent` |
| `Records.CountMatching` | src/entry.ts:57-65 | `COUNT(*)` is nonzero exactly when some row has the same id, the same info type and a timestamp above the cutoff |
| `Records.WindowBoundary` | src/entry.ts:57-58 | a row stamped exactly `now - 604800` does not count, and one stamped a second later does |
| `Records.FreshRowIsRecent` | src/entry.ts:72-73 | a row written at `now` is within the window of a check at `now` |
| `Records.RecentStaysRecent` | src/entry.ts:57-65 | appending rows never hides a row that was within the window |
| `Records.PublishedRecords.constructor` | src/entry.ts:39-44 | the table created on the first run is empty, and its errors are those of the given oracle |
| `Records.PublishedRecords.CheckRecordExistence` | src/entry.ts:55-68 | no answer exactly when the query reports an error; otherwise the answer is true iff some row has the same id and info type and `publish_timestamp > now - 604800` |
| `Records.PublishedRecords.CreatePublishRecord` | src/entry.ts:70-83 | if the insert reports no error, exactly one row `(hobby_id, info_type, now)` is appended and all earlier rows are unchanged; if it does, the table is unchanged and the failure is reported |
| `Telegram.IsInvalidImage` | src/entry.ts:169 | definition of the recognised rejection: status 400 with the invalid-image description; used by `PublishAttempt` |
| `Telegram.Caption` | src/entry.ts:161 | definition of the HTML caption; stated by `CaptionTags` |
| `Telegram.PhotoCall` | src/entry.ts:158-165 | definition of the `sendPhoto` body; `PublishAttempt` states it is always the first call |
| `Telegram.MessageCall` | src/entry.ts:170-176 | definition of the `sendMessage` body; `PublishAttempt` states it is the photo call with the other endpoint and no photo |
| `Telegram.PublishAttempt` | src/entry.ts:156-186 | the first call is always the photo; if it is delivered: one call, result 0; if it gets the recognised 400: exactly one more call, identical to the photo call except for the `sendMessage` endpoint and the missing photo (same chat, parse mode, caption and flags), result 0 (or the error is thrown); any other error: one call, result 1; never negative |
| `Telegram.CaptionTags` | src/entry.ts:161 | the caption ends with the tags joined by spaces, and splitting that part gives the tags back |
| `Telegram.TelegramBot.constructor` | src/entry.ts:193-197 | the call log starts empty |
| `Telegram.TelegramBot.Post` | src/entry.ts:158-165 | one POST appends its call to the log and gets the transport's answer |
| `Telegram.PublishInfoToTelegram` | src/entry.ts:156-186 | the method returns what `PublishAttempt` returns and makes exactly its calls to the bot |
| `Pipeline.PrimaryChannel` | src/entry.ts:209 | definition of `is_prod ? publish_channel_id : bot_owner_id`; stated by `AnnounceCalls` and `StepPublishesFresh` |
| `Pipeline.SecondaryChannel` | src/entry.ts:213 | definition of `is_prod ? publish_sub_channel_id : bot_owner_id`; stated by `AnnounceCalls` and `StepPublishesFresh` |
| `Pipeline.Publish` | src/entry.ts:209-215 | definition of one publication inside the loop; stated by `PublishProceeds` and `PublishPhotoTarget` |
| `Pipeline.Record` | src/entry.ts:220 | definition of the insert inside the loop: a row, or the storage fault; stated by `StepFaultWritesNoRow` and `FailedInsertKeepsPosts` |
| `Pipeline.Announce` | src/entry.ts:209-215 | definition of the publications of the production branch; stated by `AnnounceCalls` |
| `Pipeline.Deliver` | src/entry.ts:208-220 | definition of the production branch; stated by `DeliverPublishes`, `DeliverLosesRow` and `DeliverShape` |
| `Pipeline.Step` | src/entry.ts:200-220 | definition of one iteration of the loop; stated by `StepSkipsRecent`, `StepPublishesFresh`, `StepShape`, `StepFaultWritesNoRow` and `FailedInsertKeepsPosts` |
| `Pipeline.RunItems` | src/entry.ts:199-221 | definition of the whole loop; stated by `FaultIsFinal`, `RunAppendsOnly`, `NonProductionPublishesNothing`, `ProductionCountsRecords`, `RunLeavesItemsRecent`, `RunSkipsRecent` and `RerunIsNoOp` |
| `Pipeline.FaultIsFinal` | src/entry.ts:205 | once an error escapes an iteration, the rest of the loop does nothing |
| `Pipeline.PublishStep` | src/entry.ts:209-215 | one publication inside the loop appends its calls; a thrown fallback error becomes the run's fault |
| `Pipeline.AnnounceStep` | src/entry.ts:209-215 | the publications of one production iteration append their calls, and the item goes on or not, as `Announce` says |
| `Pipeline.ProcessItem` | src/entry.ts:200-220 | one iteration changes the table, the bot log, the fetched ids and `post_count` as `Step` says |
| `Pipeline.ProcessItems` | src/entry.ts:199-221 | the loop leaves the table, the call log, the fetched ids, `post_count` and the fault as `RunItems` computes them |
| `Pipeline.RunPipeline` | src/entry.ts:188-224 | a failed listing ends the run with nothing done; otherwise the run is the loop over `fetch_data`'s items, and its result is `post_count` or the fault |
| `Pipeline.PublishPhotoTarget` | src/entry.ts:158-165 | each publication makes exactly one photo post, to its own chat |
| `Pipeline.PublishProceeds` | src/entry.ts:209-213 | a publication that does not throw always lets the item go on, so the `< 0` checks never fire; it only appends calls, one photo post to its chat among them |
| `Pipeline.AnnounceCalls` | src/entry.ts:209-215 | the publications only append calls; the item goes on exactly when neither throws, and then the photos went to the primary chat and, iff `#比例人形` is a tag, to the secondary chat |
| `Pipeline.StepSkipsRecent` | src/entry.ts:200-202 | an item already within the window, whose query succeeds, causes no tag fetch, no publication and no new row |
| `Pipeline.StepPublishesFresh` | src/entry.ts:204-220 | any other item that completes: one tag fetch and exactly one new row; in production a photo to the primary chat, one to the secondary chat iff the tags contain `#比例人形`, and `post_count` + 1; in other modes no call and no count |
| `Pipeline.StepInProduction` | src/entry.ts:208-220 | a completed production iteration: tags fetched, one row, `post_count` + 1, photo targets primary then (iff `#比例人形`) secondary |
| `Pipeline.DeliverPublishes` | src/entry.ts:208-220 | the production branch that completes posts to the primary chat, then to the secondary chat iff tagged, counts 1 and writes one row |
| `Pipeline.DeliverLosesRow` | src/entry.ts:208-220 | when the insert fails after the publications, the posts are made but no row is written |
| `Pipeline.DeliverShape` | src/entry.ts:208-220 | whatever the publications return, the production branch only appends and writes at most one row, and counts exactly the rows it writes |
| `Pipeline.StepShape` | src/entry.ts:199-221 | an iteration only appends rows and calls (at most one row, and none if it ends the run); it counts the rows it writes in production, and in other modes makes no call and leaves `post_count` |
| `Pipeline.StepFaultWritesNoRow` | src/entry.ts:200-220 | an iteration that ends the run writes no row, and a failed existence query does nothing else either |
| `Pipeline.FailedInsertKeepsPosts` | src/entry.ts:209-220 | when the insert fails after a production publication, the run ends with the photos posted (primary chat, and secondary iff tagged), no row written, and the item still outside the window |
| `Pipeline.RunAppendsOnly` | src/entry.ts:199-221 | over a run the table and the log only grow, by at most one row per item |
| `Pipeline.NonProductionPublishesNothing` | src/entry.ts:208-218 | outside production a run makes no Bot API call and leaves `post_count` unchanged |
| `Pipeline.ProductionCountsRecords` | src/entry.ts:208-220 | in production a run without fault adds to `post_count` exactly the number of rows it writes |
| `Pipeline.StepKeepsRecent` | src/entry.ts:200-220 | an iteration never takes an item out of the window |
| `Pipeline.StepMakesRecent` | src/entry.ts:200-220 | a completed iteration leaves its own item within the window |
| `Pipeline.StepLeavesItemsRecent` | src/entry.ts:199-221 | after one more completed iteration, all items processed so far are within the window |
| `Pipeline.RunLeavesItemsRecent` | src/entry.ts:199-221 | after a run without fault, every item of the run is within the window |
| `Pipeline.RunSkipsRecent` | src/entry.ts:199-202 | a run over items that are all within the window, with queries that succeed, changes nothing |
| `Pipeline.RerunIsNoOp` | src/entry.ts:188-224 | rerunning at the same `now` over the same items on the table a completed run left, with queries that succeed, fetches no tags, makes no call, writes no row and ends with `post_count` 0 |

## Left out

- HTTP: the axios instances, keep-alive agents, proxy agent, endpoints, bot token and cookies (src/entry.ts:24-28, 89-95, 135-140, 193-197). These are network I/O. The listing fetch and the detail fetch are replaced by their results (`None` for a failure), and the Bot API by the `respond` oracle. In the source, the test mode differs from development only in its choice of HTTP agent (src/entry.ts:193), so the model gives the two the same behaviour.
- JSDOM parsing and the CSS selectors (src/entry.ts:97-105, 108, 142-146). The model starts from the strings already extracted: the `href`, the three text contents and the `src` of each entry, and the label texts of the info table. An entry whose selectors find nothing would throw inside the mapping, and the model does not represent that.
- SQLite: opening the file, `CREATE TABLE` and its possible error (src/entry.ts:35-53), and the callback plumbing. The table is an in-memory sequence. The errors of the existence query and of the insert are modelled through an oracle, but a failure of `initialize_database` is not; it would reject `main` before anything else happens. The `publish_date` column (`date("now")`, read from SQLite's own clock and never queried) is not stored.
- The clock: `new Date()` is read once per run as `nowMs`, so every check and insert of the run sees the same time. In the source, each call of `get_timestamp` reads the clock again.
- Records.GetTimestamp: computes on unbounded integers. The source's floating-point division, and any precision loss for huge clock values, are not modelled.
- Listing.HobbyIdIsFirstRun: the id is an unbounded natural number. `Number` loses precision above 2^53, and the model does not capture that.
- The letter class `\pL` (XRegExp, with the `i` flag): its membership is the parameter `isLetter`. Characters are Dafny characters, not UTF-16 code units. A letter outside the Basic Multilingual Plane, which the non-astral XRegExp class sees as two surrogates and turns into `__`, is modelled as one character.
- The watchdog `setTimeout(..., 5 minutes)`, `process.exit` and the exit codes (src/entry.ts:226-237). These are process control and timers. `RunPipeline` returns the settled value of `main()` instead.
- Console logging, the config import and reading `NODE_ENV` (src/entry.ts:8, 19-20). The mode and the chat ids are explicit parameters.
- A run over three items (one already within the window, one tagged `#比例人形`, one whose photo gets the recognised 400) is not proved as one lemma; its parts are `Pipeline.StepSkipsRecent`, `Pipeline.StepPublishesFresh` and `Telegram.PublishAttempt`.
