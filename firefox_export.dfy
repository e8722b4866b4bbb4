/**
  The Firefox popup's two export buttons (JSON and Markdown).

  Both first collect the chats to export. When batches have been downloaded, each listed batch
  is asked for again, in list order, with the start index read back from its archive name and
  its chat count. The chats of every answering batch are tagged with `_batchIndex`, the number
  of chats exported before that batch plus one, and the 1-based numbers of the batches that did
  not answer are recorded. Without downloaded batches the chats of the last scrape are exported
  untagged. The answers are a parameter: `fetches(i)` is what the content script does for
  batch i.
 */
module FirefoxExport {
  import opened Wrappers
  import opened Text
  import Filenames
  import Transfer
  import Packaging
  import FirefoxBatches

  /** The answer to one re-fetch: an exception while sending, or the response's `success` and `chats`. */
  datatype Fetch = FetchThrew | Response(success: bool, chats: Option<seq<Packaging.Chat>>)

  /** A chat in the export; the chats of a re-fetched batch carry their `_batchIndex`. */
  datatype Tagged = Tagged(batchIndex: Option<nat>, chat: Packaging.Chat)

  /** The range asked for when a listed batch is fetched again. */
  datatype Refetch = Refetch(startIndex: nat, count: nat)

  /** The collected chats, the number of listed batches and the failed batch numbers. */
  datatype Collection = Collection(chats: seq<Tagged>, totalBatches: nat, failedBatches: seq<nat>)

  /** The object written to the JSON file. */
  datatype ExportData = ExportData(
    exportTime: string,
    totalChats: nat,
    totalBatches: nat,
    failedBatches: seq<nat>,
    sourceUrl: string,
    chats: seq<Tagged>)

  /** What an export click produces. */
  datatype ExportOutcome = NothingToExport | NoData | Exported(filename: string, content: ExportContent)

  datatype ExportContent = Json(data: ExportData) | MarkdownFile(text: string)

  // ---------------------------------------------------------------------------
  // Collecting the chats
  // ---------------------------------------------------------------------------

  /** `response.success && response.chats`: an array, even an empty one, counts as delivered. */
  predicate Delivered(f: Fetch) {
    f.Response? && f.success && f.chats.Some?
  }

  /** The chats a fetch delivered. */
  function Chats(f: Fetch): seq<Packaging.Chat> {
    if Delivered(f) then f.chats.value else []
  }

  /** `exportedCount` after the first k batches. */
  function ExportedCount(fetches: nat -> Fetch, k: nat): nat {
    if k == 0 then 0 else ExportedCount(fetches, k - 1) + |Chats(fetches(k - 1))|
  }

  /** The chats of one fetch, each tagged with `before + 1`. */
  function Tag(f: Fetch, before: nat): seq<Tagged> {
    seq(|Chats(f)|, j requires 0 <= j < |Chats(f)| => Tagged(Some(before + 1), Chats(f)[j]))
  }

  /** `allChats` after the first k batches. */
  function Collected(fetches: nat -> Fetch, k: nat): seq<Tagged> {
    if k == 0 then [] else Collected(fetches, k - 1) + Tag(fetches(k - 1), ExportedCount(fetches, k - 1))
  }

  /** `failedBatches` after the first k batches. */
  function Failed(fetches: nat -> Fetch, k: nat): seq<nat> {
    if k == 0 then [] else Failed(fetches, k - 1) + (if Delivered(fetches(k - 1)) then [] else [k])
  }

  /** The chats of the last scrape, untagged. */
  function Untagged(chats: seq<Packaging.Chat>): seq<Tagged> {
    seq(|chats|, j requires 0 <= j < |chats| => Tagged(None, chats[j]))
  }

  /** The range asked for listed batch i. */
  function RefetchOf(downloads: seq<Transfer.BatchInfo>, i: nat): Refetch
    requires i < |downloads|
  {
    Refetch(Filenames.ParseIdx(downloads[i].filename), downloads[i].chatCount)
  }

  /** There is nothing to export: no downloaded batch and no chats from the last scrape. */
  predicate NothingHeld(downloads: seq<Transfer.BatchInfo>, scrapedData: Option<seq<Packaging.Chat>>) {
    downloads == [] && (scrapedData.None? || scrapedData.value == [])
  }

  /** What the collection gathers when there is something to export. */
  function Gathered(downloads: seq<Transfer.BatchInfo>, scrapedData: Option<seq<Packaging.Chat>>, fetches: nat -> Fetch): Collection {
    if downloads != [] then Collection(Collected(fetches, |downloads|), |downloads|, Failed(fetches, |downloads|))
    else Collection(Untagged(if scrapedData.Some? then scrapedData.value else []), 0, [])
  }

  /** What batch k adds to the collection of the batches before it. */
  lemma CollectNext(fetches: nat -> Fetch, k: nat)
    ensures ExportedCount(fetches, k + 1) == ExportedCount(fetches, k) + |Chats(fetches(k))|
    ensures Collected(fetches, k + 1) == Collected(fetches, k) + Tag(fetches(k), ExportedCount(fetches, k))
    ensures Failed(fetches, k + 1) == Failed(fetches, k) + (if Delivered(fetches(k)) then [] else [k + 1])
  {
  }

  /** The exported count is the number of collected chats. */
  lemma {:induction false} CollectedCount(fetches: nat -> Fetch, k: nat)
    ensures |Collected(fetches, k)| == ExportedCount(fetches, k)
  {
    if k > 0 {
      CollectedCount(fetches, k - 1);
    }
  }

  /** The chats collected after k batches stay in place when more batches follow. */
  lemma {:induction false} CollectedGrows(fetches: nat -> Fetch, k: nat, m: nat)
    requires k <= m
    ensures Collected(fetches, k) <= Collected(fetches, m)
    decreases m - k
  {
    if k < m {
      CollectedGrows(fetches, k, m - 1);
    }
  }

  /**
    Chat j of batch b (0-based) sits right after the chats exported before batch b, tagged with
    their number plus one.
   */
  lemma BatchPlacement(fetches: nat -> Fetch, k: nat, b: nat, j: nat)
    requires b < k && j < |Chats(fetches(b))|
    ensures var before := ExportedCount(fetches, b);
      && before + j < |Collected(fetches, k)|
      && Collected(fetches, k)[before + j] == Tagged(Some(before + 1), Chats(fetches(b))[j])
  {
    var before := ExportedCount(fetches, b);
    CollectedCount(fetches, b);
    CollectNext(fetches, b);
    CollectedGrows(fetches, b + 1, k);
    TagAt(fetches(b), before, j);
    ElementOfPrefix(Collected(fetches, b), Tag(fetches(b), before), Collected(fetches, k), j);
  }

  /** Chat j of a fetch, tagged. */
  lemma TagAt(f: Fetch, before: nat, j: nat)
    requires j < |Chats(f)|
    ensures j < |Tag(f, before)| && Tag(f, before)[j] == Tagged(Some(before + 1), Chats(f)[j])
  {
  }

  /** An element of the middle part of a prefix of `whole`, found in `whole`. */
  lemma ElementOfPrefix<T>(front: seq<T>, middle: seq<T>, whole: seq<T>, j: nat)
    requires front + middle <= whole && j < |middle|
    ensures |front| + j < |whole| && whole[|front| + j] == middle[j]
  {
    assert whole[|front| + j] == (front + middle)[|front| + j];
  }

  /** The failed numbers of the first k batches lie between 1 and k. */
  lemma {:induction false} FailedBounds(fetches: nat -> Fetch, k: nat)
    ensures forall i :: 0 <= i < |Failed(fetches, k)| ==> 1 <= Failed(fetches, k)[i] <= k
  {
    if k > 0 {
      FailedBounds(fetches, k - 1);
    }
  }

  /**
    `failedBatches` lists exactly the 1-based numbers of the batches that did not deliver, in
    ascending order.
   */
  lemma {:induction false} FailedAscending(fetches: nat -> Fetch, k: nat)
    ensures forall i :: i in Failed(fetches, k) <==> 1 <= i <= k && !Delivered(fetches(i - 1))
    ensures forall a, b :: 0 <= a < b < |Failed(fetches, k)| ==> Failed(fetches, k)[a] < Failed(fetches, k)[b]
  {
    if k > 0 {
      FailedAscending(fetches, k - 1);
      FailedBounds(fetches, k - 1);
    }
  }

  /** The number of failed batches and delivered batches make up all of them. */
  lemma {:induction false} FailedCount(fetches: nat -> Fetch, k: nat)
    ensures |Failed(fetches, k)| <= k
    ensures |Failed(fetches, k)| == 0 <==> forall i :: 0 <= i < k ==> Delivered(fetches(i))
  {
    if k > 0 {
      FailedCount(fetches, k - 1);
    }
  }

  /**
    A batch listed by a start loop that began at a non-negative index is fetched again for
    exactly the range it was scraped from.
   */
  lemma ListedRangesReadBack(ps: seq<FirefoxBatches.Packing>, i: nat)
    requires i < |ps| && ps[i].start >= 0
    ensures var e := FirefoxBatches.Entries(ps);
      i < |e| && RefetchOf(e, i) == Refetch(ps[i].start, |ps[i].chats|)
  {
    var p := ps[i];
    Filenames.ParseIdxRoundTrip(p.start, |p.chats|, Filenames.Timestamp(p.now));
  }

  /** The inner loop: tag every chat of one answering batch and push it. */
  method PushTagged(allChats: seq<Tagged>, chats: seq<Packaging.Chat>, exportedCount: nat) returns (r: seq<Tagged>)
    ensures |r| == |allChats| + |chats|
    ensures r[..|allChats|] == allChats
    ensures forall j :: 0 <= j < |chats| ==> r[|allChats| + j] == Tagged(Some(exportedCount + 1), chats[j])
  {
    r := allChats;
    for j := 0 to |chats|
      invariant |r| == |allChats| + j && r[..|allChats|] == allChats
      invariant forall q :: 0 <= q < j ==> r[|allChats| + q] == Tagged(Some(exportedCount + 1), chats[q])
    {
      r := r + [Tagged(Some(exportedCount + 1), chats[j])];
    }
  }

  /** The tags pushed for one batch are its `Tag`. */
  lemma PushedIsTag(all: seq<Tagged>, r: seq<Tagged>, f: Fetch, before: nat)
    requires Delivered(f)
    requires |r| == |all| + |f.chats.value| && r[..|all|] == all
    requires forall j :: 0 <= j < |f.chats.value| ==> r[|all| + j] == Tagged(Some(before + 1), f.chats.value[j])
    ensures r == all + Tag(f, before)
  {
    assert forall j :: 0 <= j < |r| ==> r[j] == (all + Tag(f, before))[j] by {
      forall j | 0 <= j < |r|
        ensures r[j] == (all + Tag(f, before))[j]
      {
        if j < |all| {
          assert r[j] == r[..|all|][j];
        }
      }
    }
  }

  /**
    The collection both export buttons run: one re-fetch per listed batch, in order, each for
    the range read back from its archive name; or the last scrape's chats when nothing is listed.
   */
  method Collect(downloads: seq<Transfer.BatchInfo>, scrapedData: Option<seq<Packaging.Chat>>, fetches: nat -> Fetch)
    returns (requests: seq<Refetch>, collection: Collection)
    requires !NothingHeld(downloads, scrapedData)
    ensures |requests| == |downloads|
    ensures forall i :: 0 <= i < |downloads| ==> requests[i] == RefetchOf(downloads, i)
    ensures collection == Gathered(downloads, scrapedData, fetches)
  {
    var allChats: seq<Tagged> := [];
    var exportedCount: nat := 0;
    var failedBatches: seq<nat> := [];
    requests := [];
    if downloads != [] {
      for i := 0 to |downloads|
        invariant |requests| == i
        invariant forall q :: 0 <= q < i ==> requests[q] == RefetchOf(downloads, q)
        invariant allChats == Collected(fetches, i) && exportedCount == ExportedCount(fetches, i)
        invariant failedBatches == Failed(fetches, i)
      {
        var batch := downloads[i];
        var startIdx := Filenames.ParseIdx(batch.filename);
        requests := requests + [Refetch(startIdx, batch.chatCount)];
        var response := fetches(i);
        CollectNext(fetches, i);
        if response.Response? && response.success && response.chats.Some? {
          var chats := response.chats.value;
          var pushed := PushTagged(allChats, chats, exportedCount);
          PushedIsTag(allChats, pushed, response, exportedCount);
          allChats := pushed;
          exportedCount := exportedCount + |chats|;
        } else {
          failedBatches := failedBatches + [i + 1];
        }
      }
    } else {
      var chats := scrapedData.value;
      allChats := Untagged(chats);
      exportedCount := |chats|;
    }
    collection := Collection(allChats, |downloads|, failedBatches);
  }

  // ---------------------------------------------------------------------------
  // The JSON export
  // ---------------------------------------------------------------------------

  /** `gemini-all-chats-<date>-<count>.<extension>`, the date being the first 10 characters of the ISO time. */
  function ExportFilename(now: string, count: nat, extension: string): string {
    "gemini-all-chats-" + Take(now, 10) + "-" + NatToString(count) + "." + extension
  }

  /** What the JSON export writes for a collection. */
  function JsonData(c: Collection, now: string): ExportData {
    ExportData(now, |c.chats|, c.totalBatches, c.failedBatches, Packaging.SourceUrl, c.chats)
  }

  /**
    The JSON export: nothing when nothing is held, no file when no chat was collected, and
    otherwise one file named after the date and the chat count with every collected chat.
   */
  method ExportJson(downloads: seq<Transfer.BatchInfo>, scrapedData: Option<seq<Packaging.Chat>>, fetches: nat -> Fetch, now: string)
    returns (requests: seq<Refetch>, outcome: ExportOutcome)
    ensures NothingHeld(downloads, scrapedData) ==> requests == [] && outcome == NothingToExport
    ensures !NothingHeld(downloads, scrapedData) ==>
      && |requests| == |downloads|
      && (forall i :: 0 <= i < |downloads| ==> requests[i] == RefetchOf(downloads, i))
      && var c := Gathered(downloads, scrapedData, fetches);
         outcome == if c.chats == [] then NoData
                    else Exported(ExportFilename(now, |c.chats|, "json"), Json(JsonData(c, now)))
  {
    if NothingHeld(downloads, scrapedData) {
      return [], NothingToExport;
    }
    var collection;
    requests, collection := Collect(downloads, scrapedData, fetches);
    var allChats := collection.chats;
    if |allChats| == 0 {
      return requests, NoData;
    }
    var filename := "gemini-all-chats-" + Take(now, 10) + "-" + NatToString(|allChats|) + ".json";
    var exportData := ExportData(now, |allChats|, |downloads|, collection.failedBatches, Packaging.SourceUrl, allChats);
    outcome := Exported(filename, Json(exportData));
  }

  /** The exported JSON lists the same chats, and as many, as were collected, and no more batches than are listed. */
  lemma JsonDataCounts(downloads: seq<Transfer.BatchInfo>, scrapedData: Option<seq<Packaging.Chat>>, fetches: nat -> Fetch, now: string)
    requires downloads != []
    ensures var d := JsonData(Gathered(downloads, scrapedData, fetches), now);
      && d.totalChats == ExportedCount(fetches, |downloads|)
      && d.totalBatches == |downloads|
      && |d.failedBatches| <= d.totalBatches
  {
    CollectedCount(fetches, |downloads|);
    FailedCount(fetches, |downloads|);
  }

  // ---------------------------------------------------------------------------
  // The Markdown export
  // ---------------------------------------------------------------------------

  /** `failedBatches.join(', ')`. */
  function JoinNumbers(ns: seq<nat>): string {
    if ns == [] then ""
    else if |ns| == 1 then NatToString(ns[0])
    else JoinNumbers(ns[..|ns| - 1]) + ", " + NatToString(ns[|ns| - 1])
  }

  const ExportRule := "---\n\n"

  /** The file's header: title, time, counts, the failed batches when there are any, and a rule. */
  function ExportHeader(now: string, total: nat, totalBatches: nat, failed: seq<nat>): string {
    "# Gemini Chats Export\n\n"
      + ("Export Time: " + now + "\n")
      + ("Total Chats: " + NatToString(total) + "\n")
      + ("Total Batches: " + NatToString(totalBatches) + "\n")
      + (if failed != [] then "Failed Batches: " + JoinNumbers(failed) + "\n" else "")
      + "\n---\n\n"
  }

  /** The block of one message: the speaker, the text if any, and a rule. */
  function MessageBlock(m: Packaging.Message): string {
    ("### " + (if m.role == "user" then "👤 User" else "🤖 Gemini") + "\n\n")
      + (if m.text != "" then m.text + "\n\n" else "")
      + ExportRule
  }

  function MessageBlocks(ms: seq<Packaging.Message>): string {
    if ms == [] then "" else MessageBlocks(ms[..|ms| - 1]) + MessageBlock(ms[|ms| - 1])
  }

  /** The heading of the chat numbered `number`, its time line and a rule. */
  function ChatHeading(c: Packaging.Chat, number: nat): string {
    ("## Chat " + NatToString(number) + ": " + (if c.title != "" then c.title else "Untitled") + "\n\n")
      + ("*Scraped at: " + (if c.timestamp != "" then c.timestamp else "unknown") + "*\n\n")
      + ExportRule
  }

  /** The block of the chat numbered `number`. */
  function ChatBlock(c: Packaging.Chat, number: nat): string {
    ChatHeading(c, number) + MessageBlocks(c.messages) + "\n\n"
  }

  /** The blocks of the first chats, numbered from 1. */
  function ChatBlocks(chats: seq<Tagged>): string {
    if chats == [] then "" else ChatBlocks(chats[..|chats| - 1]) + ChatBlock(chats[|chats| - 1].chat, |chats|)
  }

  /** The Markdown file for a collection. */
  function ExportMarkdownText(c: Collection, now: string): string {
    ExportHeader(now, |c.chats|, c.totalBatches, c.failedBatches) + ChatBlocks(c.chats)
  }

  lemma Assoc(a: string, b: string, c: string)
    ensures (a + b) + c == a + (b + c)
  {
  }

  /** The header lines of the Markdown file. */
  method WriteHeader(now: string, total: nat, totalBatches: nat, failed: seq<nat>) returns (md: string)
    ensures md == ExportHeader(now, total, totalBatches, failed)
  {
    md := "# Gemini Chats Export\n\n";
    md := md + ("Export Time: " + now + "\n");
    md := md + ("Total Chats: " + NatToString(total) + "\n");
    md := md + ("Total Batches: " + NatToString(totalBatches) + "\n");
    if |failed| > 0 {
      md := md + ("Failed Batches: " + JoinNumbers(failed) + "\n");
    }
    md := md + "\n---\n\n";
  }

  /** The Markdown file's content: the header, then the block of every chat in order. */
  method WriteMarkdown(c: Collection, now: string) returns (md: string)
    ensures md == ExportMarkdownText(c, now)
  {
    md := WriteHeader(now, |c.chats|, c.totalBatches, c.failedBatches);
    md := AppendChats(md, c.chats);
  }

  /** The `mdContent +=` loop over the messages of one chat. */
  method AppendMessages(md0: string, ms: seq<Packaging.Message>) returns (md: string)
    ensures md == md0 + MessageBlocks(ms)
  {
    md := md0;
    for j := 0 to |ms|
      invariant md == md0 + MessageBlocks(ms[..j])
    {
      assert ms[..j + 1][..j] == ms[..j];
      var msg := ms[j];
      var role := if msg.role == "user" then "👤 User" else "🤖 Gemini";
      md := md + ("### " + role + "\n\n");
      if msg.text != "" {
        md := md + (msg.text + "\n\n");
      }
      md := md + ExportRule;
      Assoc(md0, MessageBlocks(ms[..j]), MessageBlock(msg));
    }
    assert ms[..|ms|] == ms;
  }

  /** The chat blocks of one more chat. */
  lemma ChatBlocksStep(chats: seq<Tagged>, i: nat)
    requires i < |chats|
    ensures ChatBlocks(chats[..i + 1]) == ChatBlocks(chats[..i]) + ChatBlock(chats[i].chat, i + 1)
  {
    assert chats[..i + 1][..i] == chats[..i];
  }

  /** The `mdContent +=` loop over the chats. */
  method AppendChats(md0: string, chats: seq<Tagged>) returns (md: string)
    ensures md == md0 + ChatBlocks(chats)
  {
    md := md0;
    for i := 0 to |chats|
      invariant md == md0 + ChatBlocks(chats[..i])
    {
      var chat := chats[i].chat;
      var heading := "## Chat " + NatToString(i + 1) + ": " + (if chat.title != "" then chat.title else "Untitled") + "\n\n";
      var block := heading + ("*Scraped at: " + (if chat.timestamp != "" then chat.timestamp else "unknown") + "*\n\n");
      block := block + ExportRule;
      block := AppendMessages(block, chat.messages);
      block := block + "\n\n";
      md := md + block;
      ChatBlocksStep(chats, i);
      Assoc(md0, ChatBlocks(chats[..i]), ChatBlock(chat, i + 1));
    }
    assert chats[..|chats|] == chats;
  }

  /**
    The Markdown export: the same collection as the JSON export, written as one Markdown file
    named after the date and the chat count.
   */
  method ExportMarkdown(downloads: seq<Transfer.BatchInfo>, scrapedData: Option<seq<Packaging.Chat>>, fetches: nat -> Fetch, now: string)
    returns (requests: seq<Refetch>, outcome: ExportOutcome)
    ensures NothingHeld(downloads, scrapedData) ==> requests == [] && outcome == NothingToExport
    ensures !NothingHeld(downloads, scrapedData) ==>
      && |requests| == |downloads|
      && (forall i :: 0 <= i < |downloads| ==> requests[i] == RefetchOf(downloads, i))
      && var c := Gathered(downloads, scrapedData, fetches);
         outcome == if c.chats == [] then NoData
                    else Exported(ExportFilename(now, |c.chats|, "md"), MarkdownFile(ExportMarkdownText(c, now)))
  {
    if NothingHeld(downloads, scrapedData) {
      return [], NothingToExport;
    }
    var collection;
    requests, collection := Collect(downloads, scrapedData, fetches);
    var allChats := collection.chats;
    if |allChats| == 0 {
      return requests, NoData;
    }
    var filename := "gemini-all-chats-" + Take(now, 10) + "-" + NatToString(|allChats|) + ".md";
    var md := WriteMarkdown(collection, now);
    outcome := Exported(filename, MarkdownFile(md));
  }

  /** The blocks of the first m chats begin the blocks of all of them. */
  lemma {:induction false} ChatBlocksPrefix(chats: seq<Tagged>, m: nat)
    requires m <= |chats|
    ensures ChatBlocks(chats[..m]) <= ChatBlocks(chats)
    decreases |chats| - m
  {
    if m < |chats| {
      ChatBlocksStep(chats, m);
      ChatBlocksPrefix(chats, m + 1);
    } else {
      assert chats[..m] == chats;
    }
  }

  /**
    Chat i of the export (from 0) has the block numbered i + 1, right after the blocks of the
    chats collected before it.
   */
  lemma ChatBlocksNumbered(chats: seq<Tagged>, i: nat)
    requires i < |chats|
    ensures var at, b := |ChatBlocks(chats[..i])|, ChatBlock(chats[i].chat, i + 1);
      at + |b| <= |ChatBlocks(chats)| && ChatBlocks(chats)[at..at + |b|] == b
  {
    ChatBlocksStep(chats, i);
    ChatBlocksPrefix(chats, i + 1);
    PrefixSlice(ChatBlocks(chats), ChatBlocks(chats[..i]), ChatBlock(chats[i].chat, i + 1));
  }

  lemma PrefixSlice(whole: string, pre: string, b: string)
    requires pre + b <= whole
    ensures |pre| + |b| <= |whole| && whole[|pre|..|pre| + |b|] == b
  {
    assert whole[..|pre| + |b|] == pre + b;
  }
}
