/**
  The content script's own state and control flow: the level-filtering logger, the title a chat
  item is given, and the scrape controller, whose run is guarded against re-entry, checks a
  cooperative stop flag before each chat item and records exactly one entry per processed item.

  What the browser does while the run awaits (clicking, waiting for content, sleeping) is not
  modelled: how scraping one chat turns out is the parameter `attempts`, and whether a stop
  request has been handled by the time item i is about to start is the parameter `stopBefore`.
 */
module ContentScript {
  import opened Wrappers
  import opened Text
  import opened Dom
  import opened DeepQuery

  // ---------------------------------------------------------------------------
  // Logger
  // ---------------------------------------------------------------------------

  /** `this.levels`: lower is more severe. */
  const Levels: map<string, nat> := map["error" := 0, "warn" := 1, "info" := 2, "debug" := 3]

  /** The level of the script's one logger, `new Logger('info')`. */
  const ScriptLevel := "info"

  /**
    `levels[level] <= levels[this.level]`. A level missing from the table is `undefined` in the
    source, and any comparison with it is false.
   */
  predicate Emits(threshold: string, level: string) {
    level in Levels && threshold in Levels && Levels[level] <= Levels[threshold]
  }

  /** What `log` hands on to the console and the popup: its level and the arguments joined by spaces. */
  datatype LogEntry = LogEntry(level: string, message: string)

  /** `Logger.log(level, ...args)` for a logger created with `threshold`. */
  function Log(threshold: string, level: string, args: seq<string>): (e: Option<LogEntry>)
    ensures e.Some? <==> Emits(threshold, level)
    ensures e.Some? ==> e.value.level == level && e.value.message == Join(args)
  {
    if Emits(threshold, level) then Some(LogEntry(level, Join(args))) else None
  }

  /** The script's logger passes errors, warnings and information, and suppresses debug output. */
  lemma ScriptLoggerFilter(level: string)
    ensures Emits(ScriptLevel, level) <==> level == "error" || level == "warn" || level == "info"
  {
    if level == "debug" {
      assert Levels[level] == 3;
    }
  }

  /** A more verbose logger emits everything a less verbose one does. */
  lemma EmitsMonotone(t: string, u: string, level: string)
    requires t in Levels && u in Levels && Levels[t] <= Levels[u]
    requires Emits(t, level)
    ensures Emits(u, level)
  {
  }

  // ---------------------------------------------------------------------------
  // extractChatInfo: the title of a chat item
  // ---------------------------------------------------------------------------

  const TitleSelectors := ["[class*=\"title\"]", "[class*=\"name\"]", "span", "div"]
  const UntitledChat := "未命名对话"
  /** How many characters of a title are kept. */
  const TitleLength := 100

  /**
    The title choice over the selectors `sels`, tried in order: the item's own first match, or,
    only when it has none, the first match in its shadow root; the first with non-empty trimmed
    text (given by `text`) supplies the title, cut to 100 characters.
   */
  function TitleFrom(chat: Node, sels: seq<string>, text: Node -> string): (title: string)
    ensures title == UntitledChat || (title != "" && |title| <= TitleLength)
  {
    if sels == [] then UntitledChat
    else
      var light := First(LightMatches(chat, sels[0]));
      if light.None? && chat.shadow.Attached? then
        var inShadow := First(ShadowMatches(chat, sels[0]));
        if inShadow.Some? && text(inShadow.value) != "" then Take(text(inShadow.value), TitleLength)
        else TitleFrom(chat, sels[1..], text)
      else if light.Some? && text(light.value) != "" then Take(text(light.value), TitleLength)
      else TitleFrom(chat, sels[1..], text)
  }

  /** extractChatInfo's title. */
  function ChatTitle(chat: Node, text: Node -> string): string {
    TitleFrom(chat, TitleSelectors, text)
  }

  /** Where no selector finds an element with text, the item stays untitled. */
  lemma {:induction false} TitleFromNothing(chat: Node, sels: seq<string>, text: Node -> string)
    requires forall k, e :: 0 <= k < |sels| && e in LightDesc(chat) + ShadowDesc(chat) && Matches(e, sels[k]) ==> text(e) == ""
    ensures TitleFrom(chat, sels, text) == UntitledChat
  {
    if sels != [] {
      FilterMembers(LightDesc(chat), sels[0]);
      FilterMembers(ShadowDesc(chat), sels[0]);
      TitleFromNothing(chat, sels[1..], text);
    }
  }

  /** A title other than the default is a prefix of the text of an element matching one of the selectors. */
  lemma {:induction false} TitleFromSource(chat: Node, sels: seq<string>, text: Node -> string)
    requires TitleFrom(chat, sels, text) != UntitledChat
    ensures exists k, e ::
      0 <= k < |sels| && e in LightDesc(chat) + ShadowDesc(chat) && Matches(e, sels[k]) && TitleFrom(chat, sels, text) <= text(e)
  {
    var t := TitleFrom(chat, sels, text);
    FilterMembers(LightDesc(chat), sels[0]);
    FilterMembers(ShadowDesc(chat), sels[0]);
    var light := First(LightMatches(chat, sels[0]));
    var inShadow := First(ShadowMatches(chat, sels[0]));
    if light.None? && chat.shadow.Attached? && inShadow.Some? && text(inShadow.value) != "" {
      assert Matches(inShadow.value, sels[0]) && inShadow.value in LightDesc(chat) + ShadowDesc(chat);
    } else if !(light.None? && chat.shadow.Attached?) && light.Some? && text(light.value) != "" {
      assert Matches(light.value, sels[0]) && light.value in LightDesc(chat) + ShadowDesc(chat);
    } else {
      assert t == TitleFrom(chat, sels[1..], text);
      TitleFromSource(chat, sels[1..], text);
      var k, e :| 0 <= k < |sels[1..]| && e in LightDesc(chat) + ShadowDesc(chat) && Matches(e, sels[1..][k])
        && t <= text(e);
      assert Matches(e, sels[k + 1]);
    }
  }

  // ---------------------------------------------------------------------------
  // The scrape controller
  // ---------------------------------------------------------------------------

  /** `{role, content, index}` as the chat page's message extraction returns them. */
  datatype ChatMessage = ChatMessage(role: string, content: string, index: nat)

  /** How scraping one chat turns out: its timestamp and messages, or the message of the error thrown. */
  datatype Attempt = Succeeded(timestamp: string, messages: seq<ChatMessage>) | Threw(error: string)

  /** One entry of `scrapedChats`: the chat's data, or the error record pushed by the catch block. */
  datatype ChatRecord =
    | ChatData(index: nat, title: string, timestamp: string, messages: seq<ChatMessage>, messageCount: nat)
    | ErrorRecord(index: nat, title: string, error: string, messages: seq<ChatMessage>)

  const FailedTitle := "抓取失败"

  /** What getChatItems does: the items found, or the message of the error it throws. */
  datatype ItemLookup = Found(items: seq<Node>) | NotFound(error: string)

  /** startScraping's reply. */
  datatype StartReply =
    | AlreadyRunning
    | NotGeminiPage
    | Completed(chats: seq<ChatRecord>, total: nat)
    | Aborted(error: string, chats: seq<ChatRecord>)

  /** getStatus's reply. */
  datatype Status = Status(isScraping: bool, currentChatIndex: nat, scrapedCount: nat)

  const NoChatsError := "未找到任何对话项"

  /** The record scrapeSingleChat pushes for the item at 1-based position `index`. */
  function RecordOf(chat: Node, index: nat, attempt: Attempt, text: Node -> string): (r: ChatRecord)
    ensures r.index == index
    ensures r.ErrorRecord? <==> attempt.Threw?
    ensures r.ChatData? ==> r.messageCount == |r.messages| && r.messages == attempt.messages
    ensures r.ErrorRecord? ==> r.title == FailedTitle && r.messages == [] && r.error == attempt.error
  {
    match attempt
    case Succeeded(timestamp, messages) =>
      ChatData(index, ChatTitle(chat, text), timestamp, messages, |messages|)
    case Threw(error) => ErrorRecord(index, FailedTitle, error, [])
  }

  /** The records of the first n items, in order. */
  function RecordsOf(items: seq<Node>, n: nat, attempts: nat -> Attempt, text: Node -> string): seq<ChatRecord>
    requires n <= |items|
  {
    if n == 0 then []
    else RecordsOf(items, n - 1, attempts, text) + [RecordOf(items[n - 1], n, attempts(n - 1), text)]
  }

  /** One record per processed item, numbered 1, 2, ... in order. */
  lemma {:induction false} RecordsOfIndices(items: seq<Node>, n: nat, attempts: nat -> Attempt, text: Node -> string)
    requires n <= |items|
    ensures |RecordsOf(items, n, attempts, text)| == n
    ensures forall k :: 0 <= k < n ==> RecordsOf(items, n, attempts, text)[k].index == k + 1
  {
    if n > 0 {
      RecordsOfIndices(items, n - 1, attempts, text);
      var front := RecordsOf(items, n - 1, attempts, text);
      var records := RecordsOf(items, n, attempts, text);
      assert records == front + [RecordOf(items[n - 1], n, attempts(n - 1), text)];
      forall k | 0 <= k < n
        ensures records[k].index == k + 1
      {
        if k < n - 1 {
          assert records[k] == front[k];
        }
      }
    }
  }

  /** Each item's record is a success record exactly when scraping it did not throw. */
  lemma {:induction false} RecordsOfOutcome(items: seq<Node>, n: nat, attempts: nat -> Attempt, text: Node -> string, k: nat)
    requires k < n <= |items|
    ensures |RecordsOf(items, n, attempts, text)| == n
    ensures RecordsOf(items, n, attempts, text)[k] == RecordOf(items[k], k + 1, attempts(k), text)
  {
    RecordsOfIndices(items, n, attempts, text);
    if k < n - 1 {
      RecordsOfOutcome(items, n - 1, attempts, text, k);
    }
  }

  /** How many items a run processes: up to the first item before which a stop request arrived. */
  function ProcessedFrom(i: nat, n: nat, stopBefore: nat -> bool): (k: nat)
    requires i <= n
    ensures i <= k <= n
    ensures forall j :: i <= j < k ==> !stopBefore(j)
    ensures k < n ==> stopBefore(k)
    decreases n - i
  {
    if i == n || stopBefore(i) then i else ProcessedFrom(i + 1, n, stopBefore)
  }

  function Processed(n: nat, stopBefore: nat -> bool): nat {
    ProcessedFrom(0, n, stopBefore)
  }

  class Controller {
    var isScraping: bool
    var scrapedChats: seq<ChatRecord>
    var currentChatIndex: nat

    constructor ()
      ensures !isScraping && scrapedChats == [] && currentChatIndex == 0
    {
      isScraping := false;
      scrapedChats := [];
      currentChatIndex := 0;
    }

    /** stopScraping: clears the flag and nothing else, and reports success. */
    method StopScraping() returns (success: bool)
      modifies this
      ensures !isScraping && success
      ensures scrapedChats == old(scrapedChats) && currentChatIndex == old(currentChatIndex)
    {
      isScraping := false;
      success := true;
    }

    /** getStatus. */
    method GetStatus() returns (s: Status)
      ensures s == Status(isScraping, currentChatIndex, |scrapedChats|)
    {
      s := Status(isScraping, currentChatIndex, |scrapedChats|);
    }

    /** scrapeSingleChat: push one record, and return the chat's data (null when scraping it threw). */
    method ScrapeSingleChat(chat: Node, index: nat, attempt: Attempt, text: Node -> string) returns (data: Option<ChatRecord>)
      modifies this
      ensures scrapedChats == old(scrapedChats) + [RecordOf(chat, index, attempt, text)]
      ensures data.Some? <==> attempt.Succeeded?
      ensures data.Some? ==> data.value == RecordOf(chat, index, attempt, text)
      ensures isScraping == old(isScraping) && currentChatIndex == old(currentChatIndex)
    {
      match attempt
      case Succeeded(timestamp, messages) =>
        var title := ChatTitle(chat, text);
        var chatData := ChatData(index, title, timestamp, messages, |messages|);
        scrapedChats := scrapedChats + [chatData];
        data := Some(chatData);
      case Threw(error) =>
        scrapedChats := scrapedChats + [ErrorRecord(index, FailedTitle, error, [])];
        data := None;
    }

    /**
      The loop of startScraping over the chat items: before each item the stop flag is checked,
      then the item is scraped and its record pushed.
     */
    method RunItems(chatItems: seq<Node>, attempts: nat -> Attempt, stopBefore: nat -> bool, text: Node -> string)
      requires isScraping && scrapedChats == [] && currentChatIndex == 0
      modifies this
      ensures scrapedChats == RecordsOf(chatItems, Processed(|chatItems|, stopBefore), attempts, text)
      ensures currentChatIndex == Processed(|chatItems|, stopBefore)
    {
      var i := 0;
      while i < |chatItems|
        invariant 0 <= i <= |chatItems|
        invariant isScraping && Processed(|chatItems|, stopBefore) == ProcessedFrom(i, |chatItems|, stopBefore)
        invariant scrapedChats == RecordsOf(chatItems, i, attempts, text)
        invariant currentChatIndex == i
      {
        if stopBefore(i) {
          var _ := StopScraping();
        }
        if !isScraping {
          assert ProcessedFrom(i, |chatItems|, stopBefore) == i;
          return;
        }
        currentChatIndex := i + 1;
        var _ := ScrapeSingleChat(chatItems[i], i + 1, attempts(i), text);
        i := i + 1;
      }
    }

    /**
      startScraping. A run already in progress or a page that is not a Gemini page is refused
      with the state untouched; otherwise the run starts afresh and, whatever happens, ends with
      the flag cleared.
     */
    method StartScraping(isGeminiPage: bool, lookup: ItemLookup, attempts: nat -> Attempt, stopBefore: nat -> bool,
                         text: Node -> string)
      returns (reply: StartReply)
      modifies this
      ensures old(isScraping) ==>
        reply == AlreadyRunning && isScraping && scrapedChats == old(scrapedChats) && currentChatIndex == old(currentChatIndex)
      ensures !old(isScraping) && !isGeminiPage ==>
        reply == NotGeminiPage && !isScraping && scrapedChats == old(scrapedChats) && currentChatIndex == old(currentChatIndex)
      ensures !old(isScraping) && isGeminiPage ==> !isScraping
      ensures !old(isScraping) && isGeminiPage && lookup.NotFound? ==>
        reply == Aborted(lookup.error, []) && scrapedChats == []
      ensures !old(isScraping) && isGeminiPage && lookup == Found([]) ==>
        reply == Aborted(NoChatsError, []) && scrapedChats == []
      ensures !old(isScraping) && isGeminiPage && lookup.Found? && lookup.items != [] ==>
        var n := Processed(|lookup.items|, stopBefore);
        && scrapedChats == RecordsOf(lookup.items, n, attempts, text)
        && currentChatIndex == n
        && reply == Completed(scrapedChats, |scrapedChats|)
    {
      if isScraping {
        return AlreadyRunning;
      }
      if !isGeminiPage {
        return NotGeminiPage;
      }
      isScraping := true;
      scrapedChats := [];
      currentChatIndex := 0;
      if lookup.NotFound? {
        isScraping := false;
        return Aborted(lookup.error, scrapedChats);
      }
      var chatItems := lookup.items;
      if |chatItems| == 0 {
        isScraping := false;
        return Aborted(NoChatsError, scrapedChats);
      }
      RunItems(chatItems, attempts, stopBefore, text);
      isScraping := false;
      reply := Completed(scrapedChats, |scrapedChats|);
    }
  }
}
