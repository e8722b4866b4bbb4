# Gemini Business chat backup — a verified model

The modelled system is a browser extension, in a Chrome and a Firefox variant, that backs up
the chat history of Gemini Business. A content script on the chat page walks the conversation
list. It reaches into nested shadow DOM trees to find the list items and messages, and scrapes
one chat after another. A popup drives the scrape in batches of a few chats. Each batch becomes
a ZIP archive: in Firefox the popup packs it itself; in Chrome it arrives in numbered chunks that
the popup merges. The popup can re-fetch every archived batch and export all chats as one JSON
or Markdown file. A background script keeps a small record of the scrape state. Two console
tools, a DOM checker and a debug tool, probe the page structure and assemble messages turn by
turn.

The model keeps the logic under the browser plumbing, one Dafny module per concern:

- `Dom` is the page as a tree. Every node has light children and an optional shadow root.
  Selector matching is membership of a label, so `querySelector` means the first match in
  preorder among the light descendants.
- `DeepQuery` is the shadow-piercing query engine of `content.js`, repeated verbatim in
  `dom-checker.js`. It has two quirks, both proved as stated: the fallback search reaches only
  the shadow roots of light-DOM descendants, and the all-results search may list an element more
  than once.
- `Text` holds the string helpers: number printing and parsing, `split(' ')` with its inverse
  `join(' ')`, and the non-empty selector segments.
- `ContentScript` covers the logger's level filter, the chat-title choice and the scrape
  controller. The controller is a class holding the module state `isScraping`, `scrapedChats`
  and `currentChatIndex`.
- `DomChecker` and `DebugTool` cover the turn sampling, the image collection, the per-turn
  message assembly and the bounded polling of `testClick`.
- `Background` is the `scrapeState` record with its message and tab-removal transitions. It is
  given both as pure transition functions and as a class whose methods are proved against them.
- `Transfer` is the Chrome popup's receiver for chunked archives. Its class holds a
  `map<string, Session>`, where a session's chunk slots are `seq<Option<seq<bv8>>>`. The merge
  writes into an `array` at a moving offset.
- `PopupUi` covers `updateStatus`'s button enablement, the 100-line log panel and
  `sanitizeFilename`.
- `ChromeBatches` is the Chrome popup's `batch-complete` handler, its batch sizing and its start
  loop.
- `Filenames` is the archive file name and the `/idx(\d+)-/` parse that reads the start index
  back from it.
- `Packaging` is Firefox's `packageBatch`, with the archive as a list of (path, content)
  entries, and `generateMarkdown`.
- `FirefoxBatches` is the Firefox popup's start loop.
- `FirefoxExport` is the two export buttons: re-fetching every listed batch, the `_batchIndex`
  and `failedBatches` bookkeeping, and the JSON and Markdown output.

Anything that comes from the browser is a parameter of the model:

- Replies of the other scripts are a script of replies indexed by batch number
  (`FirefoxBatches.Step`, `ChromeBatches.BatchStep`, `FirefoxExport.Fetch`).
- Scrape attempts and stop requests are `nat -> …` functions.
- The clock is a `now` string.
- Random image names are a `stamp` function.
- The text and HTML of an element are a `Node -> string` function.

## Model

| member | source | states |
|---|---|---|
| Text.NoSegmentsIffBlank | chrome-extension/content.js:57-58 | a selector string has no segments exactly when it is empty or all spaces |
| Text.SegmentsOfJoin | chrome-extension/content.js:107-113 | joining segments with spaces and splitting again gives back the same segments, so the parent path re-resolves segment by segment |
| Text.JoinSplit | chrome-extension/content.js:57 | `split(' ')` loses nothing: joining its parts with spaces restores the string |
| Text.DigitsValueOfNatToString | firefox-extension/popup/popup.js:156 | a printed natural number reads back as the same number |
| Dom.FilterMembers | chrome-extension/content.js:119-121 | `querySelectorAll` over the light descendants returns exactly the matching ones |
| DeepQuery.QuerySelectorInShadow | chrome-extension/content.js:82-100 | the loop returns the first element of the preorder shadow search: own shadow root, then each light descendant's shadow root followed by that host's own search |
| DeepQuery.FirstInHosts | chrome-extension/content.js:88-97 | the loop over the light descendants returns the first hit of their concatenated contributions |
| DeepQuery.QuerySelectorAllInShadow | chrome-extension/content.js:137-157 | the result is the own shadow root's matches followed, for every shadow host, by the host's shadow matches and then the host's own recursive result |
| DeepQuery.AllInHosts | chrome-extension/content.js:145-154 | the loop's concatenation equals the hosts' contributions in document order |
| DeepQuery.AllInShadowSound | chrome-extension/content.js:137-157 | every listed element matches and lies in the root's shadow tree or in a light descendant's shadow tree |
| DeepQuery.AllInShadowMembers | chrome-extension/dom-checker.js:90-110 | an element is listed exactly when it matches and lies in the root's or a light descendant's shadow tree |
| DeepQuery.DuplicateMatches | chrome-extension/dom-checker.js:90-110 | a match in a light descendant's shadow tree is listed at least twice |
| DeepQuery.NestedShadowNotSearched | chrome-extension/content.js:82-100 | a match inside a shadow root nested in a shadow tree is not found |
| DeepQuery.StepIsFirstOfTiers | chrome-extension/content.js:64-72 | one segment resolves to the first light match, else the first match of the shadow search, which begins with the own shadow root |
| DeepQuery.StepSound | chrome-extension/content.js:64-76 | a resolved segment matches, lies in reach, and is the first light match whenever there is one |
| DeepQuery.StepNoneIff | chrome-extension/content.js:74 | a segment fails exactly when no reachable element matches it |
| DeepQuery.ResolveAppend | chrome-extension/content.js:60-76 | resolving a path segment by segment is resolving its first part and then the rest from there, and a failure stops the walk |
| DeepQuery.ResolveMatchesLast | chrome-extension/content.js:60-78 | a resolved path ends at an element matching its last segment |
| DeepQuery.QuerySelectorDeep | chrome-extension/content.js:56-79 | the loop computes the segment-by-segment resolution; a blank selector gives null; a result matches the last segment |
| DeepQuery.StepIsFirstOfTiered | chrome-extension/dom-checker.js:12-88 | the single-result lookup of a segment is the head of the all-results lookup from the same parent |
| DeepQuery.DeepIsFirstOfAllDeep | chrome-extension/content.js:56-134 | `querySelectorDeep` returns the first element of `querySelectorAllDeep` for the same selector |
| DeepQuery.TieredQuery | chrome-extension/content.js:119-131 | light matches, else own-shadow-root matches, else the shadow search; later tiers only when earlier ones are empty |
| DeepQuery.QuerySelectorAllDeep | chrome-extension/content.js:103-134 | a blank selector or an unresolved parent path gives `[]`; otherwise the tiered query of the last segment from the resolved parent |
| DeepQuery.ContainerImgsMeaning | chrome-extension/dom-checker.js:275-278 | a container has an entry exactly when its shadow tree holds an `img`, and the entry is the first `img` of that tree in document order |
| ContentScript.Log | chrome-extension/content.js:21-27 | an entry is emitted exactly when the level is at most the logger's level, carrying the arguments joined by spaces |
| ContentScript.ScriptLoggerFilter | chrome-extension/content.js:48 | the script's `info` logger passes error, warn and info and suppresses debug |
| ContentScript.EmitsMonotone | chrome-extension/content.js:19-23 | a more verbose logger emits everything a less verbose one does |
| ContentScript.TitleFrom | chrome-extension/content.js:291-304 | the title is the default or a non-empty text of at most 100 characters |
| ContentScript.TitleFromNothing | chrome-extension/content.js:291-304 | with no selector hitting an element with text, the chat stays untitled |
| ContentScript.TitleFromSource | chrome-extension/content.js:293-304 | any other title is a prefix of the text of an element matching one of the selectors |
| ContentScript.RecordOf | chrome-extension/content.js:475-499 | one record per item, with its index; an error record exactly when scraping threw, titled as failed, with no messages |
| ContentScript.RecordsOfIndices | chrome-extension/content.js:541-553 | one record per processed item, numbered 1, 2, … in order |
| ContentScript.RecordsOfOutcome | chrome-extension/content.js:465-501 | record k is the record of item k, a success exactly when its scrape did not throw |
| ContentScript.ProcessedFrom | chrome-extension/content.js:541-545 | the run processes items up to the first one before which a stop arrived, and all of them when none did |
| ContentScript.Controller.StopScraping | chrome-extension/content.js:579-583 | clears the flag only and reports success |
| ContentScript.Controller.GetStatus | chrome-extension/content.js:586-592 | reports the flag, the current index and the number of records |
| ContentScript.Controller.ScrapeSingleChat | chrome-extension/content.js:465-501 | appends exactly one record and returns the chat's data, or null when scraping threw |
| ContentScript.Controller.RunItems | chrome-extension/content.js:541-553 | the loop leaves the records of the processed items and the index of the last one |
| ContentScript.Controller.StartScraping | chrome-extension/content.js:505-576 | a second start changes nothing; off the Gemini page nothing starts; a failed or empty lookup aborts with no records; the flag is off on every return |
| DomChecker.LightThenShadow | chrome-extension/dom-checker.js:369-380 | the light match when there is one, else the turn's own shadow-root match |
| DomChecker.SampleOf | chrome-extension/dom-checker.js:356-397 | a sample has its 1-based index, no images, the user text of the first match, and the first min(200, length) characters of the AI HTML |
| DomChecker.SummariseTurns | chrome-extension/dom-checker.js:350-397 | all turns are counted, at most the first two are detailed, numbered from 1 |
| DomChecker.ExtractSampleData | chrome-extension/dom-checker.js:343-403 | the same for the turns the deep query finds |
| DomChecker.ImagesOfLength | chrome-extension/dom-checker.js:275-284 | never more images than containers, and as many exactly when every container holds an `img` |
| DomChecker.ImagesOfMembers | chrome-extension/dom-checker.js:275-284 | the images are exactly those of the containers holding an `img`, with `src` falling back to the attribute |
| DomChecker.ExtractImages | chrome-extension/dom-checker.js:269-288 | the loop collects the images of the containers the deep query finds, in order |
| DomChecker.ExtractUserImages | chrome-extension/dom-checker.js:269-288 | the user-image path's images |
| DomChecker.ExtractAIImages | chrome-extension/dom-checker.js:299-318 | the AI-image path's images |
| DebugTool.ListItemsAppend | chrome-extension/debug-tool.js:17-24 | the items of containers one after the other are each container's items, in container order |
| DebugTool.ListItemsConcat | chrome-extension/debug-tool.js:17-24 | the items are every container's own pushed items, concatenated in order |
| DebugTool.ListItemsOne | chrome-extension/debug-tool.js:19-22 | a container contributes its first light `.list-item`, or nothing when it has none |
| DebugTool.ListItemsMembers | chrome-extension/debug-tool.js:17-24 | the items are exactly the first light `.list-item` of each container that has one |
| DebugTool.ImagesInAppend | chrome-extension/debug-tool.js:61-67 | the images of two runs of found elements are those of each, in order |
| DebugTool.ImagesInOne | chrome-extension/debug-tool.js:62-66 | a found element is kept exactly when it is an `img` with a non-empty `src` |
| DebugTool.ImagesInMembers | chrome-extension/debug-tool.js:61-67 | every found image with a non-empty `src` is kept, and nothing else is |
| DebugTool.ImagesInShape | chrome-extension/debug-tool.js:62-66 | every kept image carries the role and a non-empty `src` |
| DebugTool.CollectImages | chrome-extension/debug-tool.js:61-67 | the `forEach` keeps the images with a `src`, tagged with the role |
| DebugTool.ExtractTurnUserContent | chrome-extension/debug-tool.js:43-75 | the user's text and images, every image tagged `user` with a `src` |
| DebugTool.ShadowPathNoneIff | chrome-extension/debug-tool.js:84-96 | a chain of `shadowRoot.querySelector` lookups finds nothing exactly when one of its links is missing |
| DebugTool.ShadowPathSnoc | chrome-extension/debug-tool.js:84-96 | one more lookup at the end of a chain starts from what the chain found |
| DebugTool.ShadowPathMatches | chrome-extension/debug-tool.js:84-96 | what a lookup chain finds matches its last selector |
| DebugTool.AnswerOfMeaning | chrome-extension/debug-tool.js:84-96 | the answer is "" when a link of the streamer, response, markdown, document chain is missing, and otherwise the HTML of a `.markdown-document` element |
| DebugTool.ExtractAnswer | chrome-extension/debug-tool.js:84-96 | the nested lookups give the answer of `AnswerOfMeaning`: "" on a missing link, else the document's HTML |
| DebugTool.ExtractTurnAIResponse | chrome-extension/debug-tool.js:77-116 | images are collected only when the AI text is empty; every image tagged `ai` with a `src` |
| DebugTool.TurnMessages | chrome-extension/debug-tool.js:159-177 | at most two messages per turn, each with content and the turn's index; the user's first |
| DebugTool.MessagesOfIndices | chrome-extension/debug-tool.js:158-178 | every message's turn index is between 1 and the number of turns |
| DebugTool.MessagesOfShape | chrome-extension/debug-tool.js:158-178 | at most two messages per turn and every message has content |
| DebugTool.MessagesOfTurn | chrome-extension/debug-tool.js:158-178 | the messages tagged with turn t are exactly that turn's messages, in order |
| DebugTool.AssembleTurn | chrome-extension/debug-tool.js:159-177 | the two `push`es emit the turn's messages |
| DebugTool.ExtractTurn | chrome-extension/debug-tool.js:158-177 | one turn's messages from the page |
| DebugTool.MessagesOfTurns | chrome-extension/debug-tool.js:158-178 | the `forEach` emits every turn's messages in turn order |
| DebugTool.ExtractMessages | chrome-extension/debug-tool.js:147-182 | the messages of all turns; none without turns |
| DebugTool.PollForTurns | chrome-extension/debug-tool.js:131-142 | at most 15 polls; stops at the first poll that sees turns; found exactly when one of the 15 does |
| DebugTool.TestClick | chrome-extension/debug-tool.js:118-143 | false without items; a failed list lookup or a missing item throws; otherwise true exactly when turns appear within 15 polls |
| Background.MergeFields | chrome-extension/background.js:45-47 | `updateState` takes every field the update carries and keeps every other |
| Background.MergeIdentityIdempotent | chrome-extension/background.js:45-47 | merging nothing changes nothing; merging the same update twice is merging it once |
| Background.MergeThen | chrome-extension/background.js:45-47 | two updates amount to one with the later fields winning |
| Background.QueriesChangeNothing | chrome-extension/background.js:50-59 | getState, ping and unknown actions leave the state; ping reports the flag; unknown actions fail |
| Background.TabRemoval | chrome-extension/background.js:66-72 | closing the watched tab clears the flag and the tab; closing another changes nothing |
| Background.StaysStopped | chrome-extension/background.js:33-72 | without a start or an update turning it on, the flag stays off through any events |
| Background.WatchedTab | chrome-extension/background.js:34-72 | after a start from a tab, the watched tab stays that tab until an update, or is cleared with the flag when it closes |
| Background.BackgroundScript.constructor | chrome-extension/background.js:9-15 | the initial record |
| Background.BackgroundScript.OnInstalled | chrome-extension/background.js:18-27 | back to the initial record |
| Background.BackgroundScript.OnMessage | chrome-extension/background.js:30-63 | the state after a message is its transition, the reply is the transition's reply |
| Background.BackgroundScript.OnTabRemoved | chrome-extension/background.js:66-72 | the state after a tab closes is its transition |
| Transfer.Store | chrome-extension/popup/popup.js:344 | the slot gets the bytes, the array grows to reach it, and every other slot keeps its value |
| Transfer.MergeLength | chrome-extension/popup/popup.js:368-391 | the merged buffer's length is the sum of the filled slots' lengths |
| Transfer.MergeSkipsHoles | chrome-extension/popup/popup.js:385-391 | the merged buffer is the filled slots concatenated in index order |
| Transfer.MergeAllFilled | chrome-extension/popup/popup.js:385-391 | with every slot filled, the buffer is the chunks concatenated |
| Transfer.StoreInOrderSlots | chrome-extension/popup/popup.js:344 | chunks stored in any arrival order leave each slot holding its chunk |
| Transfer.ArrivalOrderIrrelevant | chrome-extension/popup/popup.js:335-391 | when every chunk arrives, in whatever order, the merge is the chunks in index order |
| Transfer.Receiver.constructor | chrome-extension/popup/popup.js:198-200 | no sessions, no downloads, no waiter |
| Transfer.Receiver.WaitForTransfer | chrome-extension/popup/popup.js:216-228 | installs the transfer waiter and changes nothing else |
| Transfer.Receiver.Resolve | chrome-extension/popup/popup.js:222-226 | calls a pending waiter, which clears itself |
| Transfer.Receiver.HandleTransferStart | chrome-extension/popup/popup.js:230-241 | a fresh empty session under the id, replacing any earlier one |
| Transfer.Receiver.HandleChunk | chrome-extension/popup/popup.js:335-351 | an unknown id is ignored; otherwise the slot is stored, the count goes up by one and the total is the sender's; nothing else changes |
| Transfer.Receiver.HandleTransferEnd | chrome-extension/popup/popup.js:353-419 | on every path the session is gone and a pending waiter is released; a download is listed first exactly when the merge has data and succeeds, and the buffer is the merge |
| Transfer.Receiver.HandleTransferComplete | chrome-extension/popup/popup.js:948-955 | the finished file is listed first and a pending waiter is released |
| Transfer.SumSizes | chrome-extension/popup/popup.js:368-371 | the size loop adds up the filled slots |
| Transfer.MergeChunks | chrome-extension/popup/popup.js:383-391 | the offset loop writes the merge into a fresh buffer |
| Transfer.CopyInto | chrome-extension/popup/popup.js:389 | `buffer.set` writes the chunk at the offset and leaves the rest of the buffer alone |
| PopupUi.StatusEntryOf | firefox-extension/popup/popup.js:53-64 | the status table; an unknown status shows the message, or the error text, in the error style |
| PopupUi.UpdateStatus | firefox-extension/popup/popup.js:51-73 | start disabled while scraping or connecting; stop enabled only while scraping; both exports enabled exactly with data and no scrape running |
| PopupUi.StartStopExclusive | firefox-extension/popup/popup.js:69-70 | start and stop are never enabled together |
| PopupUi.ShownIsRecent | chrome-extension/popup/popup.js:88-106 | the panel always shows the last 100 lines ever logged, in order |
| PopupUi.LogPanel.AddLog | chrome-extension/popup/popup.js:88-106 | the removal loop leaves the last 100 lines, the new one last |
| PopupUi.Sanitize | chrome-extension/popup/popup.js:118-120 | length is the smaller of 50 and the name's; each forbidden character becomes `_`, the others are kept; none remains |
| PopupUi.SanitizeIdempotent | chrome-extension/popup/popup.js:118-120 | a sanitised name is unchanged by sanitising again |
| ChromeBatches.ProgressAfterBatch | chrome-extension/popup/popup.js:972-986 | after a non-empty batch the bar shows every chat of the run, out of the export count if set, else the tab's total if truthy; otherwise the bar is full |
| ChromeBatches.RunTotal | chrome-extension/popup/popup.js:972-974 | the scraped total grows by exactly the chats the messages report |
| ChromeBatches.RunEmptyCount | chrome-extension/popup/popup.js:966-973 | the empty counter counts the empty messages since the last non-empty one |
| ChromeBatches.NextStartFollowsLastBatch | chrome-extension/popup/popup.js:972-976 | after a non-empty batch the next start is right after its chats and the empty counter is 0 |
| ChromeBatches.StaysStopped | chrome-extension/popup/popup.js:966-998 | the handler never turns scraping back on |
| ChromeBatches.TwoEmptyStops | chrome-extension/popup/popup.js:966-971 | two empty batches in a row end the scrape, whatever follows |
| ChromeBatches.RunSplit | chrome-extension/popup/popup.js:957-998 | handling two message sequences one after the other composes |
| ChromeBatches.StopNeedsTwoEmpty | chrome-extension/popup/popup.js:966-971 | from a zero counter, the handler ends scraping exactly when two empty batches come in a row |
| ChromeBatches.Begin | chrome-extension/popup/popup.js:588-605 | the intended start of a run, the corrected half of the finding below: scraping from its start index with the totals and the empty counter at 0 |
| ChromeBatches.StaleEmptyCountStops | chrome-extension/popup/popup.js:605 | as written, a counter left at 1 by the last run ends the next run after its first batch when that batch is empty |
| ChromeBatches.LeftoverCounterFirstBatch | chrome-extension/popup/popup.js:605 | as written, a counter left at 1 or more ends the next run after its first batch when that batch is empty; when that batch has chats the counter is cleared and the run goes on |
| ChromeBatches.BeginStopsOnlyOnTwoEmpty | chrome-extension/popup/popup.js:605-606 | with the counter reset, a run stops on empty batches exactly when two come in a row |
| ChromeBatches.BatchSize | chrome-extension/popup/popup.js:610 | the remaining count when it is positive and below the batch size, else the batch size |
| ChromeBatches.PlanCoversCount | chrome-extension/popup/popup.js:608-665 | with a positive export count the sizes add up to exactly that count, each positive and at most the batch size, all but the last full |
| ChromeBatches.OrElse | chrome-extension/popup/popup.js:595-602 | `parseInt(x) \|\| d`: the default, or the parsed value when it is a non-zero number |
| ChromeBatches.ChromePopup.constructor | chrome-extension/popup/popup.js:28-40 | all counters zero and flags off |
| ChromeBatches.ChromePopup.HandleBatchComplete | chrome-extension/popup/popup.js:957-998 | the counters become the handler's transition and the batch waiter is released |
| ChromeBatches.ChromePopup.StopClick | chrome-extension/popup/popup.js:679-693 | while scraping: scraping ends and the next run resumes at the current index; otherwise nothing changes |
| ChromeBatches.ChromePopup.AwaitBatch | chrome-extension/popup/popup.js:614-660 | the counters afterwards are `AfterStep` of those before: the transfer flag cleared, then a stop during the request, the handler when still scraping and a stop during the wait; an unreachable tab ends the loop; otherwise the loop goes on exactly while scraping and below the safety limit |
| ChromeBatches.ChromePopup.StartClick | chrome-extension/popup/popup.js:585-677 | a second start sends nothing and changes nothing; requests are numbered from 1, start at the input, else the last start index, else 0; each later one starts right after the previous batch's chats when that batch reported some, else where the previous one started, and below 1000; with an export count their sizes follow the plan; the counters afterwards are those of the run's batches from the reset, with scraping off, and the scraped total is the sum of the handled `batch-complete` counts; as written, a counter left at 1 by the last run ends the run after its first request when that batch is empty |
| ChromeBatches.ChromePopup.ScrapeLoop | chrome-extension/popup/popup.js:603-666 | from the reset counters: the requests chain their start indices batch by batch and follow the plan, and the counters are those of the batches the loop went through |
| ChromeBatches.ChromePopup.AwaitInRun | chrome-extension/popup/popup.js:614-660 | one batch of a run moves the counters one step along the script, and when the loop goes on the next start is where that batch left it |
| ChromeBatches.PlanStep | chrome-extension/popup/popup.js:610-665 | one more batch keeps the sizes sent a prefix of the plan |
| ChromeBatches.Stopped | chrome-extension/popup/popup.js:679-693 | the stop click's effect: scraping off, the next run resuming at the current index, nothing else changed |
| ChromeBatches.GoingOnAfterStep | chrome-extension/popup/popup.js:614-660 | a batch the tab answered and after which scraping goes on saw no stop and its message handled, so the next start is right after a non-empty batch's chats, else unchanged |
| ChromeBatches.StepTotal | chrome-extension/popup/popup.js:614-660 | a batch adds to the scraped total exactly the chats of the message the handler saw, and nothing when none reached it |
| ChromeBatches.StepsTotal | chrome-extension/popup/popup.js:608-666 | over a run the scraped total grows by exactly the chats of the handled messages |
| ChromeBatches.RunStepsNext | chrome-extension/popup/popup.js:608-666 | one more batch moves the run's counters by that batch |
| ChromeBatches.SentNext | chrome-extension/popup/popup.js:609-665 | sending the next request where the previous batch left the start index, sized by the batch rule, and counting it off keeps the loop's bookkeeping |
| ChromeBatches.RequestsOkMeans | chrome-extension/popup/popup.js:622 | each later request starts where the previous batch left the start index |
| Filenames.Timestamp | firefox-extension/popup/popup.js:155 | at most 19 characters of the time with no `:` or `-` left |
| Filenames.DigitRun | firefox-extension/popup/popup.js:258 | the longest run of digits at a position |
| Filenames.MatchAt | firefox-extension/popup/popup.js:258 | a match of `idx`, one or more digits and `-` at a position, and its digits |
| Filenames.FilenameLayout | firefox-extension/popup/popup.js:156 | the archive name is the prefix, the start index, `-`, the count, `-`, the timestamp and `.zip` |
| Filenames.ParseIdxRoundTrip | firefox-extension/popup/popup.js:156 | the start index parsed back from an archive name is the index it was built with |
| Filenames.ParseIdxNegative | firefox-extension/popup/popup.js:258 | a negative start index, which the pattern cannot match, reads back as 0 |
| Filenames.ParseIdxSigned | firefox-extension/popup/popup.js:258 | a name whose part after the prefix starts with a minus sign and has no `i` reads back as 0 |
| Packaging.Ext | firefox-extension/popup/popup.js:186 | a non-empty extension without `/` or `;` |
| Packaging.ExtOfMime | firefox-extension/popup/popup.js:186 | the subtype after `/` and before `;`, or `png` when it is empty or missing |
| Packaging.RewriteImage | firefox-extension/popup/popup.js:184-193 | an image with data and a MIME type loses its data and points at `images/<file>`; any other image is kept |
| Packaging.RewriteChatIdempotent | firefox-extension/popup/popup.js:178-204 | rewriting the copy again changes nothing, since no image in it keeps its data |
| Packaging.CopyMatchesMetadata | firefox-extension/popup/popup.js:192-199 | the copy's `src` is the path the metadata records as `originalSrc`, because it is read after the reassignment |
| Packaging.ImageBookkeeping | firefox-extension/popup/popup.js:183-201 | one file and one metadata entry per packaged image, each entry's `originalSrc` the file's path |
| Packaging.MessageBookkeeping | firefox-extension/popup/popup.js:181-204 | the same across all messages of a chat |
| Packaging.MetadataPointsAtFiles | firefox-extension/popup/popup.js:172-214 | the image count is the number of metadata entries, and each entry points at a file in the archive |
| Packaging.PackImages | firefox-extension/popup/popup.js:183-202 | the image loop rewrites the copy, adds the files and metadata, and counts the images |
| Packaging.PackMessages | firefox-extension/popup/popup.js:181-204 | the message loop over one chat |
| Packaging.PackChat | firefox-extension/popup/popup.js:173-211 | one chat's folder, images, JSON and Markdown |
| Packaging.PackChats | firefox-extension/popup/popup.js:172-212 | the chat loop's entries, metadata and image count |
| Packaging.PackageBatch | firefox-extension/popup/popup.js:147-226 | an empty batch packs nothing and lists nothing; otherwise the archive is named after start, count and time, ends with `metadata.json`, and is listed first |
| Packaging.SectionShape | firefox-extension/popup/popup.js:235-247 | each message's section opens with `## User` or `## Gemini` and ends with a rule |
| Packaging.MarkdownAppend | firefox-extension/popup/popup.js:234-248 | one more message adds exactly its section at the end |
| Packaging.ImageLinesAppend | firefox-extension/popup/popup.js:240-243 | an image with a `src` adds its `![Image](src)` line |
| Packaging.AppendImageLines | firefox-extension/popup/popup.js:240-244 | the image loop appends one line per image with a `src` |
| Packaging.AppendSection | firefox-extension/popup/popup.js:235-247 | the message loop's body appends the message's section |
| Packaging.GenerateMarkdown | firefox-extension/popup/popup.js:229-251 | the header, defaulting to `Untitled Chat`, then every message's section in order |
| FirefoxBatches.StatusView | firefox-extension/popup/popup.js:51-73 | for a run status: stop enabled only while scraping, start at any other time, the error style exactly on error |
| FirefoxBatches.Advance | firefox-extension/popup/popup.js:483-485 | a batch adds its chats to the total, and a packing batch moves the last start index and the furthest end |
| FirefoxBatches.ListedNext | firefox-extension/popup/popup.js:481 | a packing batch's archive is listed in front of the earlier ones |
| FirefoxBatches.MaxEndContinuing | firefox-extension/popup/popup.js:484 | while the loop goes on, the furthest end is where the delivered chats end |
| FirefoxBatches.GoesOn | firefox-extension/popup/popup.js:445-511 | a batch that lets the loop go on extends the run |
| FirefoxBatches.EndsAt | firefox-extension/popup/popup.js:463-511 | a batch that does not let the loop go on ends the run with its status |
| FirefoxBatches.RequestNext | firefox-extension/popup/popup.js:446-459 | each request starts after everything delivered so far, sized by the batch rule |
| FirefoxBatches.LastStartAfterRun | firefox-extension/popup/popup.js:485 | after a run, the next start is after the delivered chats, or unchanged when nothing was packaged |
| FirefoxBatches.MaxEndAfterRun | firefox-extension/popup/popup.js:484 | after a run, the total is where the delivered chats end, or 0 when nothing was packaged |
| FirefoxBatches.TrackedNext | firefox-extension/popup/popup.js:446-485 | after one more batch, the requests, delivered count, downloads, last start index and furthest end are those of the spec functions one batch on |
| FirefoxBatches.OutcomeNext | firefox-extension/popup/popup.js:461-511 | after one more batch either every batch so far let the loop go on, or this batch ended the run with its status |
| FirefoxBatches.PackageListed | firefox-extension/popup/popup.js:481 | packaging a delivering batch puts its entry in front of the downloads |
| FirefoxBatches.FirefoxPopup.constructor | firefox-extension/popup/popup.js:26-36 | idle, no data, no downloads, all counters 0 |
| FirefoxBatches.FirefoxPopup.StopClick | firefox-extension/popup/popup.js:527-541 | while scraping and reachable: stopped, resuming at the current index; otherwise nothing changes |
| FirefoxBatches.FirefoxPopup.PackReply | firefox-extension/popup/popup.js:481-500 | a delivering batch is packaged and listed first, and the totals, last start and remaining count move by its chats |
| FirefoxBatches.FirefoxPopup.HandleReply | firefox-extension/popup/popup.js:461-511 | one reply: the loop goes on exactly when chats came, the count is not used up and the index stays below 1000; the run fails exactly on an unreachable tab or a refusal other than the end of the list |
| FirefoxBatches.FirefoxPopup.NextBatch | firefox-extension/popup/popup.js:445-511 | one iteration keeps the bookkeeping invariant, and the index strictly grows while the loop goes on |
| FirefoxBatches.FirefoxPopup.ScrapeLoop | firefox-extension/popup/popup.js:445-511 | the loop runs until the first batch that does not let it go on, with one request per batch |
| FirefoxBatches.FirefoxPopup.Run | firefox-extension/popup/popup.js:427-523 | the requests, final status, totals, listed archives, last start index and furthest end of the run, in closed form |
| FirefoxBatches.FirefoxPopup.StartClick | firefox-extension/popup/popup.js:424-524 | a second start does nothing; otherwise the whole run as above and scraping off afterwards |
| FirefoxExport.CollectNext | firefox-extension/popup/popup.js:608-617 | a delivered batch adds its chats tagged with the count before it plus one; a failed one adds its 1-based number |
| FirefoxExport.CollectedCount | firefox-extension/popup/popup.js:608-612 | the number of collected chats is the exported count |
| FirefoxExport.CollectedGrows | firefox-extension/popup/popup.js:587-618 | the collection only grows |
| FirefoxExport.BatchPlacement | firefox-extension/popup/popup.js:608-612 | chat j of batch b sits right after the chats of the earlier batches and carries `_batchIndex` = their count plus one |
| FirefoxExport.TagAt | firefox-extension/popup/popup.js:609-610 | every chat of a batch gets the same batch index |
| FirefoxExport.FailedBounds | firefox-extension/popup/popup.js:614-617 | failed batch numbers lie between 1 and the number of batches |
| FirefoxExport.FailedAscending | firefox-extension/popup/popup.js:614-617 | a batch is listed as failed exactly when it delivered nothing usable; the list is strictly ascending |
| FirefoxExport.FailedCount | firefox-extension/popup/popup.js:614-617 | no more failures than batches, and none exactly when all delivered |
| FirefoxExport.ListedRangesReadBack | firefox-extension/popup/popup.js:589-591 | each listed archive is re-fetched from the start index and count it was packaged with |
| FirefoxExport.PushTagged | firefox-extension/popup/popup.js:609-612 | the push loop appends the batch's chats with their batch index |
| FirefoxExport.PushedIsTag | firefox-extension/popup/popup.js:609-612 | what the loop pushed is the tagged batch |
| FirefoxExport.Collect | firefox-extension/popup/popup.js:583-622 | one re-fetch per listed archive, the collection being the tagged chats and the failed numbers; the chats on hand when nothing is listed |
| FirefoxExport.ExportJson | firefox-extension/popup/popup.js:573-666 | nothing on hand: nothing happens; nothing collected: no file; otherwise the dated JSON file named after the chat count |
| FirefoxExport.JsonDataCounts | firefox-extension/popup/popup.js:632-639 | total chats, total batches and failed batches in the JSON agree with the collection |
| FirefoxExport.WriteHeader | firefox-extension/popup/popup.js:696-703 | the export header, with the failed-batches line only when there are failures |
| FirefoxExport.WriteMarkdown | firefox-extension/popup/popup.js:696-718 | the header followed by every chat's block |
| FirefoxExport.AppendMessages | firefox-extension/popup/popup.js:710-715 | one block per message, in order |
| FirefoxExport.ChatBlocksStep | firefox-extension/popup/popup.js:705-718 | the next chat adds its block numbered by its position |
| FirefoxExport.AppendChats | firefox-extension/popup/popup.js:705-718 | the chat loop appends every chat's block in order |
| FirefoxExport.ExportMarkdown | firefox-extension/popup/popup.js:668-766 | as the JSON export, with the Markdown text and the `.md` name |
| FirefoxExport.ChatBlocksPrefix | firefox-extension/popup/popup.js:705-718 | the blocks of the first chats begin the blocks of all chats |
| FirefoxExport.ChatBlocksNumbered | firefox-extension/popup/popup.js:706-707 | chat i appears as `## Chat i+1` right after the blocks of the chats before it |

## Left out

- Messaging through `chrome.runtime` and `chrome.tabs` is not modelled. A message's arrival is a method call, and a reply is a parameter.
- `chrome.storage` is not modelled: saved state, saved batches, configuration, `init` and the clear buttons.
- Blob URLs, anchor-click downloads and `URL.revokeObjectURL` are not modelled. A download is an entry in the list of downloads.
- JSZip and `JSON.stringify` are foreign libraries. An archive is a list of (path, content) entries, and JSON files are values.
- Timers and promises are not modelled: `sleep`, `setTimeout` and the timeouts of `waitForBatchComplete` and `waitForTransfer`. A waiter is a boolean, and a timed-out wait is a step in which no message arrives.
- `Date.now`, `Math.random` and ISO times come from the clock. They are parameters: `now` and `stamp`.
- The exports read the clock twice, for the file name's date and for the export time. The model uses one `now` for both.
- Console output, log message texts, `escapeHtml` and the `updateProgress` percentage are rendering and floating point. They are not modelled; a log line keeps only its time, level and message.
- `content.js` page interaction is opaque: `isGeminiPage`, `getShadowHost`, `getChatListContainer`, `expandAllChats`, `getChatItems`, `clickChat`, `waitForElement`, `waitForChatContent`, `extractMessages`, `sendProgress`. Their outcomes are parameters of `StartScraping`.
- The `onMessage` switch of `content.js` only dispatches to the modelled operations and is not modelled. The same holds for its `debug` reply.
- The popups' message listeners are not modelled, except as calls of the modelled handlers. This covers the `progress` and `log` messages and the sender check.
- The first `handleChunk` and `handleTransferEnd` (chrome-extension/popup/popup.js:243, 259) are dead code, because later declarations replace them.
- The second `transfer-complete` branch (chrome-extension/popup/popup.js:1000-1010) is dead code, because the first branch always returns before it.
- Chrome's export buttons (chrome-extension/popup/popup.js:722-920) are the same code as Firefox's. `FirefoxExport` models them once.
- Chrome's packaging and the sending side of the chunked transfer are not part of this model.
- `redownloadBatch` is modelled only through its index parse (`FirefoxExport.RefetchOf`). Re-scraping is messaging, and re-packaging is `PackageBatch`.
- `sendToPackageAndTransfer` is messaging.
- The console diagnostics are not modelled: `checkPageInfo`, `checkShadowHost`, `checkChatList`, `checkExpandButton`, `checkConversationContainer`, `checkTurns`, `runAll`, `exportResults`, `runFullTest`.
- `extractUserQuestion` and `extractAIResponse` are a single `querySelectorDeep` call followed by reading text, so `DeepQuery.QuerySelectorDeep` covers them.
- Selector matching is abstract: a node matches a selector when the selector is one of its labels. `textContent.trim()`, `outerHTML` and `src` are the functions `text`, `html` and `src`.
- JavaScript numbers are doubles, but counters are modelled as unbounded integers. Every value involved stays far below 2^53.
- Packaging.PackageBatch: JSZip failures, which the source rethrows, are not modelled, so the model always packages.
- FirefoxBatches.FirefoxPopup.StartClick: an exception from packaging, or from reading the configuration, is not modelled.
- FirefoxBatches.FirefoxPopup.StartClick: a stop click is seen only in the pause after a batch has been packaged (`Step.stopClicked`), not while the request or the packaging is in flight.
- FirefoxBatches.FirefoxPopup.StartClick: the error message shown with the error status is not kept.
- ChromeBatches.ChromePopup.StartClick: the contract gives the counters after the batches it sent and chains their start indices, but does not say in closed form at which batch the loop ends.
- ChromeBatches.ChromePopup.StartClick: the status shown at the end is not modelled. It is `completed` on every normal exit, even after a stop.
- ChromeBatches.ChromePopup.StartClick: a send error other than an unreachable tab is ignored, as in the source.
- ChromeBatches.ChromePopup.StartClick: the wait for the transfer inside the loop is not modelled, because archives are received by `Transfer.Receiver`.
- ChromeBatches.ChromePopup.StartClick: the loop ends when the script of steps runs out. In the source it can wait without end.
- ContentScript.TitleFrom: JavaScript strings are UTF-16 code units, while a Dafny `string` is a sequence of Unicode scalar values. The 100-character cut therefore differs from the source on text with characters outside the Basic Multilingual Plane, such as emoji, where the source can also split a surrogate pair.
- PopupUi.Sanitize: the 50-character cut counts Unicode scalar values, not UTF-16 code units, so it differs from the source on characters outside the Basic Multilingual Plane.
- DomChecker.SampleOf: the 200-character cut of the AI HTML counts Unicode scalar values, not UTF-16 code units, so it differs from the source on characters outside the Basic Multilingual Plane.
- ContentScript.Controller.StartScraping: a run is modelled as atomic. In the source a stop clears the flag while the loop is still waiting. A new start can then pass the guard, reset the records and the index, and run beside the old loop, which sees the flag set again and goes on with the shared state. Overlapping runs are not modelled.
- Background.MergeFields: the state has five known optional fields. The spread in the source can also add fields of any name, change a field's type or set a field to `undefined`. None of that is modelled.
- Filenames.ParseIdxNegative: the result is proved only for timestamps without an `i`. Timestamps are digits and `T`, so this covers every name the popup builds.

## Findings

| source | as written | input that shows it | evidently intended | confidence | as-written member | corrected member |
|---|---|---|---|---|---|---|
| chrome-extension/popup/popup.js:605 | The start click declares its own `emptyBatchCount`. That local shadows the module-level counter (line 38), which the `batch-complete` handler increments on an empty batch (line 967) and clears only after a non-empty one (line 973). | A run whose last batch was empty leaves the counter at 1, or at 2 when it reached the end of the list. The next run then ends after its first batch when that batch is empty (`LeftoverCounterFirstBatch`; `ChromePopup.StartClick` proves it for the class); a first batch with chats clears the counter. | Every run starts with the counter at 0, so that only two empty batches in a row of that run end it. | not executed | ChromeBatches.StaleEmptyCountStops | ChromeBatches.BeginStopsOnlyOnTwoEmpty |
