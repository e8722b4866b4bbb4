/**
  The background script's one piece of state, the scrape-state record, and the handlers that
  change it: the runtime messages `startScraping`, `stopScraping`, `updateState`, `getState` and
  `ping`, the install event, and the removal of a browser tab.

  `updateState` merges an arbitrary object into the record; here the object is a patch that may
  set any of the five known fields. The id of the sending tab (`sender.tab?.id`) is a parameter,
  absent when the sender is not a tab.
 */
module Background {
  import opened Wrappers
  import opened ContentScript

  datatype ScrapeState = ScrapeState(
    isScraping: bool,
    currentTabId: Option<int>,
    currentChatIndex: int,
    totalChats: int,
    scrapedChats: seq<ChatRecord>)

  /** The state at load and after install: not scraping, no tab, zero counters, no chats. */
  const Initial := ScrapeState(false, None, 0, 0, [])

  /** `request.state` of an `updateState` message: the fields it carries. */
  datatype Patch = Patch(
    isScraping: Option<bool>,
    currentTabId: Option<Option<int>>,
    currentChatIndex: Option<int>,
    totalChats: Option<int>,
    scrapedChats: Option<seq<ChatRecord>>)

  const EmptyPatch := Patch(None, None, None, None, None)

  datatype Request =
    | StartScraping
    | StopScraping
    | UpdateState(patch: Patch)
    | GetState
    | Ping
    | Unknown(action: string)

  /** The response sent back for each request. */
  datatype Reply =
    | Started
    | Stopped
    | Updated
    | StateIs(state: ScrapeState)
    | Pong(isScraping: bool)
    | UnknownCommand

  /** `{...s, ...p}`: each field the patch carries overrides, the others are kept. */
  function Merge(s: ScrapeState, p: Patch): ScrapeState {
    ScrapeState(
      p.isScraping.GetOr(s.isScraping),
      p.currentTabId.GetOr(s.currentTabId),
      p.currentChatIndex.GetOr(s.currentChatIndex),
      p.totalChats.GetOr(s.totalChats),
      p.scrapedChats.GetOr(s.scrapedChats))
  }

  /** The patch that applies p and then q: q's fields win. */
  function Then(p: Patch, q: Patch): Patch {
    Patch(
      if q.isScraping.Some? then q.isScraping else p.isScraping,
      if q.currentTabId.Some? then q.currentTabId else p.currentTabId,
      if q.currentChatIndex.Some? then q.currentChatIndex else p.currentChatIndex,
      if q.totalChats.Some? then q.totalChats else p.totalChats,
      if q.scrapedChats.Some? then q.scrapedChats else p.scrapedChats)
  }

  /** The state after a request from the tab `sender`. */
  function Next(s: ScrapeState, req: Request, sender: Option<int>): ScrapeState {
    match req
    case StartScraping => s.(isScraping := true, currentTabId := sender)
    case StopScraping => s.(isScraping := false)
    case UpdateState(p) => Merge(s, p)
    case _ => s
  }

  /** The reply to a request, given the state before it. */
  function ReplyTo(s: ScrapeState, req: Request): Reply {
    match req
    case StartScraping => Started
    case StopScraping => Stopped
    case UpdateState(_) => Updated
    case GetState => StateIs(s)
    case Ping => Pong(s.isScraping)
    case Unknown(_) => UnknownCommand
  }

  /** The state after the tab `tabId` is closed: only the watched tab's closing matters. */
  function AfterTabRemoved(s: ScrapeState, tabId: int): ScrapeState {
    if s.currentTabId == Some(tabId) then s.(isScraping := false, currentTabId := None) else s
  }

  // ---------------------------------------------------------------------------
  // Properties of the transitions
  // ---------------------------------------------------------------------------

  /** A merge keeps every field the patch leaves out and takes every field it carries. */
  lemma MergeFields(s: ScrapeState, p: Patch)
    ensures var r := Merge(s, p);
      && (r.isScraping == if p.isScraping.Some? then p.isScraping.value else s.isScraping)
      && (r.currentTabId == if p.currentTabId.Some? then p.currentTabId.value else s.currentTabId)
      && (r.currentChatIndex == if p.currentChatIndex.Some? then p.currentChatIndex.value else s.currentChatIndex)
      && (r.totalChats == if p.totalChats.Some? then p.totalChats.value else s.totalChats)
      && (r.scrapedChats == if p.scrapedChats.Some? then p.scrapedChats.value else s.scrapedChats)
  {
  }

  /** Merging the empty object changes nothing; merging the same object twice is merging it once. */
  lemma MergeIdentityIdempotent(s: ScrapeState, p: Patch)
    ensures Merge(s, EmptyPatch) == s
    ensures Merge(Merge(s, p), p) == Merge(s, p)
  {
  }

  /** Two successive updates amount to one update with the later fields winning. */
  lemma MergeThen(s: ScrapeState, p: Patch, q: Patch)
    ensures Merge(Merge(s, p), q) == Merge(s, Then(p, q))
  {
  }

  /** getState, ping and unknown actions leave the state as it was; ping reports the flag. */
  lemma QueriesChangeNothing(s: ScrapeState, sender: Option<int>, action: string)
    ensures Next(s, GetState, sender) == s && Next(s, Ping, sender) == s && Next(s, Unknown(action), sender) == s
    ensures ReplyTo(s, Ping) == Pong(s.isScraping) && ReplyTo(s, Unknown(action)) == UnknownCommand
  {
  }

  /** Closing the watched tab stops the scrape and forgets the tab; closing any other tab changes nothing. */
  lemma TabRemoval(s: ScrapeState, tabId: int)
    ensures s.currentTabId == Some(tabId) ==>
      AfterTabRemoved(s, tabId) == s.(isScraping := false, currentTabId := None)
    ensures s.currentTabId != Some(tabId) ==> AfterTabRemoved(s, tabId) == s
  {
  }

  /** Everything that can happen to the background script. */
  datatype Event = Installed | Message(req: Request, sender: Option<int>) | TabRemoved(tabId: int)

  function Apply(s: ScrapeState, e: Event): ScrapeState {
    match e
    case Installed => Initial
    case Message(req, sender) => Next(s, req, sender)
    case TabRemoved(tabId) => AfterTabRemoved(s, tabId)
  }

  /** The state after a sequence of events, in order. */
  function Run(s: ScrapeState, events: seq<Event>): ScrapeState {
    if events == [] then s else Apply(Run(s, events[..|events| - 1]), events[|events| - 1])
  }

  /** An event that can turn the flag on: startScraping, or an update carrying `isScraping: true`. */
  predicate CanStart(e: Event) {
    e.Message? && (e.req.StartScraping? || (e.req.UpdateState? && e.req.patch.isScraping == Some(true)))
  }

  /** Without an event that can turn it on, the flag, once off, stays off. */
  lemma {:induction false} StaysStopped(s: ScrapeState, events: seq<Event>)
    requires !s.isScraping
    requires forall k :: 0 <= k < |events| ==> !CanStart(events[k])
    ensures !Run(s, events).isScraping
  {
    if events != [] {
      var front := events[..|events| - 1];
      assert forall k :: 0 <= k < |front| ==> front[k] == events[k];
      StaysStopped(s, front);
    }
  }

  /**
    While scraping, the watched tab is the one that sent the last startScraping, unless an
    update has since replaced it: after startScraping from `sender`, events that neither start
    nor update leave the tab as `sender` or, if that tab was closed, clear both the tab and the flag.
   */
  lemma {:induction false} WatchedTab(s: ScrapeState, sender: Option<int>, events: seq<Event>)
    requires forall k :: 0 <= k < |events| ==>
      events[k] != Installed && !(events[k].Message? && (events[k].req.StartScraping? || events[k].req.UpdateState?))
    ensures var r := Run(Next(s, StartScraping, sender), events);
      r.currentTabId == sender || (r.currentTabId == None && !r.isScraping)
  {
    if events != [] {
      var front := events[..|events| - 1];
      assert forall k :: 0 <= k < |front| ==> front[k] == events[k];
      WatchedTab(s, sender, front);
    }
  }

  // ---------------------------------------------------------------------------
  // The script
  // ---------------------------------------------------------------------------

  class BackgroundScript {
    var isScraping: bool
    var currentTabId: Option<int>
    var currentChatIndex: int
    var totalChats: int
    var scrapedChats: seq<ChatRecord>

    /** The record `scrapeState`. */
    function State(): ScrapeState
      reads this
    {
      ScrapeState(isScraping, currentTabId, currentChatIndex, totalChats, scrapedChats)
    }

    constructor ()
      ensures State() == Initial
    {
      isScraping, currentTabId, currentChatIndex, totalChats, scrapedChats := false, None, 0, 0, [];
    }

    /** The onInstalled listener: back to the initial record. */
    method OnInstalled()
      modifies this
      ensures State() == Initial
    {
      isScraping, currentTabId, currentChatIndex, totalChats, scrapedChats := false, None, 0, 0, [];
    }

    /** The onMessage listener. */
    method OnMessage(req: Request, sender: Option<int>) returns (reply: Reply)
      modifies this
      ensures State() == Next(old(State()), req, sender)
      ensures reply == ReplyTo(old(State()), req)
    {
      match req
      case StartScraping =>
        isScraping := true;
        currentTabId := sender;
        reply := Started;
      case StopScraping =>
        isScraping := false;
        reply := Stopped;
      case UpdateState(p) =>
        var merged := Merge(State(), p);
        isScraping, currentTabId, currentChatIndex, totalChats, scrapedChats :=
          merged.isScraping, merged.currentTabId, merged.currentChatIndex, merged.totalChats, merged.scrapedChats;
        reply := Updated;
      case GetState =>
        reply := StateIs(State());
      case Ping =>
        reply := Pong(isScraping);
      case Unknown(_) =>
        reply := UnknownCommand;
    }

    /** The tabs.onRemoved listener. */
    method OnTabRemoved(tabId: int)
      modifies this
      ensures State() == AfterTabRemoved(old(State()), tabId)
    {
      if currentTabId == Some(tabId) {
        isScraping := false;
        currentTabId := None;
      }
    }
  }
}
