/**
  The debug tool's message assembly: for each conversation turn, the user's text and attached
  images and the AI answer (or, when it has no text, the AI's images), turned into an ordered list
  of messages; and the bounded poll that waits for turns to appear after a click.

  Elements are reached through chains of `querySelector` calls into successive shadow roots. An
  element's trimmed `textContent`, its `outerHTML` and an image's `src` property are read through
  the parameters `text`, `html` and `src`.
 */
module DebugTool {
  import opened Wrappers
  import opened Dom
  import opened DeepQuery

  const AppSelector := "ucs-standalone-app"
  const ResultsSelector := ".ucs-standalone-outer-row-container ucs-results"
  const ConversationSelector := "ucs-conversation"
  const TurnSelector := ".main .turn"
  const NavPanelSelector := "ucs-nav-panel"
  const ChatContainerSelector := ".conversation-list .conversation-container"
  const ListItemSelector := ".list-item"
  const QuestionMarkdownSelector := ".question-block ucs-fast-markdown"
  const QuestionSpanSelector := ".markdown-document p span"
  const SummarySelector := "ucs-summary"
  const AttachmentsSelector := "ucs-summary-attachments"
  const AttachmentContainerSelector := ".attachment-container"
  const MarkdownImageSelector := "ucs-markdown-image"
  const StreamerSelector := ".summary-container .summary-contents ucs-text-streamer"
  const ResponseSelector := "ucs-response-markdown"
  const FastMarkdownSelector := "ucs-fast-markdown"
  const DocumentSelector := ".markdown-document"

  /** How many one-second polls testClick makes before giving up. */
  const PollLimit := 15

  datatype Role = User | Ai

  /** `{type: 'image', src, role}`. */
  datatype ImageRef = ImageRef(src: string, role: Role)

  /** `{text, images}` as the two per-turn extractors return it. */
  datatype Content = Content(text: string, images: seq<ImageRef>)

  /** `{role, text, images, turnIndex}`. */
  datatype Message = Message(role: Role, text: string, images: seq<ImageRef>, turnIndex: nat)

  predicate HasContent(c: Content) {
    c.text != "" || |c.images| > 0
  }

  /** `el && el.shadowRoot ? el.shadowRoot.querySelector(sel) : null`. */
  function ShadowQuery(el: Option<Node>, sel: string): Option<Node> {
    match el
    case None => None
    case Some(e) => if e.shadow.Attached? then First(ShadowMatches(e, sel)) else None
  }

  // ---------------------------------------------------------------------------
  // Locating turns and chat items
  // ---------------------------------------------------------------------------

  /** getTurns: app, results and conversation each through its shadow root; [] when a link is missing. */
  function GetTurns(document: Node): seq<Node> {
    var app := First(LightMatches(document, AppSelector));
    var conv := ShadowQuery(ShadowQuery(app, ResultsSelector), ConversationSelector);
    match conv
    case None => []
    case Some(c) => if c.shadow.Attached? then ShadowMatches(c, TurnSelector) else []
  }

  /**
    getChatItems: the `.list-item` of each conversation container, in order. None when a link
    of the chain is missing, where the source throws a TypeError.
   */
  function GetChatItems(document: Node): Option<seq<Node>> {
    var app := First(LightMatches(document, AppSelector));
    if app.None? || !app.value.shadow.Attached? then None
    else
      var nav := First(ShadowMatches(app.value, NavPanelSelector));
      if nav.None? || !nav.value.shadow.Attached? then None
      else Some(ListItems(ShadowMatches(nav.value, ChatContainerSelector)))
  }

  /** `container.querySelector('.list-item')`, pushed when found. */
  function ItemOf(container: Node): (r: seq<Node>)
    ensures |r| <= 1
  {
    match First(LightMatches(container, ListItemSelector))
    case None => []
    case Some(item) => [item]
  }

  function ListItems(containers: seq<Node>): (items: seq<Node>)
    ensures |items| <= |containers|
  {
    if containers == [] then []
    else ListItems(containers[..|containers| - 1]) + ItemOf(containers[|containers| - 1])
  }

  /** The items of containers one after the other are the items of each, in the same order. */
  lemma ListItemsAppend(a: seq<Node>, b: seq<Node>)
    ensures ListItems(a + b) == ListItems(a) + ListItems(b)
  {
    ListItemsConcat(a + b);
    ListItemsConcat(a);
    ListItemsConcat(b);
    ConcatMapAppend(a, b, ItemOf);
  }

  /** The items are each container's own items, concatenated in order. */
  lemma {:induction false} ListItemsConcat(containers: seq<Node>)
    ensures ListItems(containers) == ConcatMap(containers, ItemOf)
  {
    if containers != [] {
      ListItemsConcat(containers[..|containers| - 1]);
    }
  }

  /** A single container contributes its first light `.list-item`, or nothing when it has none. */
  lemma ListItemsOne(c: Node)
    ensures LightMatches(c, ListItemSelector) == [] ==> ListItems([c]) == []
    ensures LightMatches(c, ListItemSelector) != [] ==> ListItems([c]) == [LightMatches(c, ListItemSelector)[0]]
  {
    assert [c][..0] == [];
  }

  /** The items are exactly the first light `.list-item` of each container that has one. */
  lemma {:induction false} ListItemsMembers(containers: seq<Node>)
    ensures forall x :: x in ListItems(containers) <==>
      exists i :: 0 <= i < |containers| && LightMatches(containers[i], ListItemSelector) != []
        && x == LightMatches(containers[i], ListItemSelector)[0]
  {
    if containers != [] {
      var n := |containers|;
      var front := containers[..n - 1];
      ListItemsMembers(front);
      forall i | 0 <= i < n - 1
        ensures containers[i] == front[i]
      {
      }
    }
  }

  // ---------------------------------------------------------------------------
  // Per-turn content
  // ---------------------------------------------------------------------------

  /** The images, in order, of the found `<img>` elements whose `src` is non-empty. */
  function ImagesIn(imgs: seq<Option<Node>>, role: Role, src: Node -> string): (images: seq<ImageRef>)
    ensures |images| <= |imgs|
  {
    if imgs == [] then []
    else
      var front := ImagesIn(imgs[..|imgs| - 1], role, src);
      match imgs[|imgs| - 1]
      case Some(img) => if src(img) != "" then front + [ImageRef(src(img), role)] else front
      case None => front
  }

  /** Every collected image carries the given role and a non-empty `src`. */
  lemma {:induction false} ImagesInShape(imgs: seq<Option<Node>>, role: Role, src: Node -> string)
    ensures forall k :: 0 <= k < |ImagesIn(imgs, role, src)| ==>
      ImagesIn(imgs, role, src)[k].role == role && ImagesIn(imgs, role, src)[k].src != ""
  {
    if imgs != [] {
      ImagesInShape(imgs[..|imgs| - 1], role, src);
    }
  }

  /** The images of two runs of found elements are those of each, in the same order. */
  lemma {:induction false} ImagesInAppend(a: seq<Option<Node>>, b: seq<Option<Node>>, role: Role, src: Node -> string)
    ensures ImagesIn(a + b, role, src) == ImagesIn(a, role, src) + ImagesIn(b, role, src)
    decreases |b|
  {
    if b == [] {
      assert a + b == a;
    } else {
      var ab := a + b;
      assert ab[..|ab| - 1] == a + b[..|b| - 1];
      assert ab[|ab| - 1] == b[|b| - 1];
      ImagesInAppend(a, b[..|b| - 1], role, src);
    }
  }

  /** A single found element is kept exactly when it is an image with a non-empty `src`. */
  lemma ImagesInOne(img: Option<Node>, role: Role, src: Node -> string)
    ensures img.Some? && src(img.value) != "" ==> ImagesIn([img], role, src) == [ImageRef(src(img.value), role)]
    ensures img.None? || src(img.value) == "" ==> ImagesIn([img], role, src) == []
  {
    assert [img][..0] == [];
  }

  /** Every found image with a non-empty `src` is kept, and nothing else is. */
  lemma {:induction false} ImagesInMembers(imgs: seq<Option<Node>>, role: Role, src: Node -> string)
    ensures forall r :: r in ImagesIn(imgs, role, src) <==>
      exists i :: 0 <= i < |imgs| && imgs[i].Some? && src(imgs[i].value) != "" && r == ImageRef(src(imgs[i].value), role)
  {
    if imgs != [] {
      var n := |imgs|;
      var front := imgs[..n - 1];
      ImagesInMembers(front, role, src);
      forall i | 0 <= i < n - 1
        ensures imgs[i] == front[i]
      {
      }
    }
  }

  /** The images under an attachment container, or none without one. */
  function ContainerImages(container: Option<Node>, role: Role, src: Node -> string): seq<ImageRef> {
    match container
    case None => []
    case Some(c) => ImagesIn(ContainerImgs(LightMatches(c, MarkdownImageSelector)), role, src)
  }

  /** extractTurnUserContent, as a value. */
  function UserContent(turn: Node, text: Node -> string, src: Node -> string): Content {
    var span := ShadowQuery(First(LightMatches(turn, QuestionMarkdownSelector)), QuestionSpanSelector);
    var summary := First(LightMatches(turn, SummarySelector));
    var container := ShadowQuery(ShadowQuery(summary, AttachmentsSelector), AttachmentContainerSelector);
    Content(match span case Some(s) => text(s) case None => "", ContainerImages(container, User, src))
  }

  /** Successive `shadowRoot.querySelector` lookups from `start`, one per selector; None once a link is missing. */
  function ShadowPath(start: Option<Node>, sels: seq<string>): Option<Node> {
    if sels == [] then start else ShadowQuery(ShadowPath(start, sels[..|sels| - 1]), sels[|sels| - 1])
  }

  /** Link k of a lookup chain is missing: the element before it is absent, has no shadow root, or holds no match. */
  predicate Breaks(start: Option<Node>, sels: seq<string>, k: nat)
    requires k < |sels|
  {
    var at := ShadowPath(start, sels[..k]);
    at.None? || !at.value.shadow.Attached? || ShadowMatches(at.value, sels[k]) == []
  }

  /** A lookup chain from an element finds nothing exactly when one of its links is missing. */
  lemma {:induction false} ShadowPathNoneIff(start: Option<Node>, sels: seq<string>)
    requires start.Some?
    ensures ShadowPath(start, sels).None? <==> exists k :: 0 <= k < |sels| && Breaks(start, sels, k)
  {
    if sels != [] {
      var n := |sels|;
      var front := sels[..n - 1];
      var p := ShadowPath(start, front);
      ShadowPathNoneIff(start, front);
      forall k | 0 <= k < n - 1
        ensures Breaks(start, sels, k) <==> Breaks(start, front, k)
      {
        assert sels[..k] == front[..k];
      }
      assert Breaks(start, sels, n - 1) <==> p.None? || !p.value.shadow.Attached? || ShadowMatches(p.value, sels[n - 1]) == [];
      if p.None? {
        var k :| 0 <= k < n - 1 && Breaks(start, front, k);
        assert Breaks(start, sels, k);
      }
    }
  }

  /** One more link at the end of a lookup chain. */
  lemma ShadowPathSnoc(start: Option<Node>, sels: seq<string>, sel: string)
    ensures ShadowPath(start, sels + [sel]) == ShadowQuery(ShadowPath(start, sels), sel)
  {
    assert (sels + [sel])[..|sels|] == sels;
  }

  /** What a lookup chain finds matches the chain's last selector. */
  lemma ShadowPathMatches(start: Option<Node>, sels: seq<string>)
    requires sels != [] && ShadowPath(start, sels).Some?
    ensures Matches(ShadowPath(start, sels).value, sels[|sels| - 1])
  {
    var at := ShadowPath(start, sels[..|sels| - 1]);
    FilterMembers(ShadowDesc(at.value), sels[|sels| - 1]);
  }

  /** The chain from a summary to the answer: streamer, response, markdown, document. */
  const AnswerPath := [StreamerSelector, ResponseSelector, FastMarkdownSelector, DocumentSelector]

  /** The answer's HTML at the end of the answer chain under a summary; "" when a link is missing. */
  function AnswerOf(summary: Node, html: Node -> string): string {
    match ShadowPath(Some(summary), AnswerPath) case Some(d) => html(d) case None => ""
  }

  /**
    The answer is "" when a link of the chain is missing, and otherwise the HTML of a
    `.markdown-document` element.
   */
  lemma AnswerOfMeaning(summary: Node, html: Node -> string)
    ensures (exists k :: 0 <= k < |AnswerPath| && Breaks(Some(summary), AnswerPath, k)) ==> AnswerOf(summary, html) == ""
    ensures (forall k :: 0 <= k < |AnswerPath| ==> !Breaks(Some(summary), AnswerPath, k)) ==>
      exists d :: Matches(d, DocumentSelector) && AnswerOf(summary, html) == html(d)
  {
    ShadowPathNoneIff(Some(summary), AnswerPath);
    if ShadowPath(Some(summary), AnswerPath).Some? {
      ShadowPathMatches(Some(summary), AnswerPath);
    }
  }

  /** extractTurnAIResponse, as a value. */
  function AiContent(turn: Node, html: Node -> string, src: Node -> string): Content {
    var summary := First(LightMatches(turn, SummarySelector));
    if summary.None? || !summary.value.shadow.Attached? then Content("", [])
    else
      var answer := AnswerOf(summary.value, html);
      if answer != "" then Content(answer, [])
      else Content(answer, ContainerImages(ShadowQuery(summary, AttachmentContainerSelector), Ai, src))
  }

  /** The forEach over `ucs-markdown-image` hosts, keeping images with a non-empty `src`. */
  method CollectImages(hosts: seq<Node>, role: Role, src: Node -> string) returns (images: seq<ImageRef>)
    ensures images == ImagesIn(ContainerImgs(hosts), role, src)
    ensures forall k :: 0 <= k < |images| ==> images[k].role == role && images[k].src != ""
  {
    ghost var found := ContainerImgs(hosts);
    images := [];
    for i := 0 to |hosts|
      invariant images == ImagesIn(found[..i], role, src)
    {
      ImagesInStep(found, i, role, src);
      var imgEl := hosts[i];
      if imgEl.shadow.Attached? {
        var img := First(ShadowMatches(imgEl, "img"));
        if img.Some? && src(img.value) != "" {
          images := images + [ImageRef(src(img.value), role)];
        }
      }
    }
    assert found[..|hosts|] == found;
    ImagesInShape(found, role, src);
  }

  /** The images of the first i + 1 found elements: those of the first i, then element i's. */
  lemma ImagesInStep(imgs: seq<Option<Node>>, i: nat, role: Role, src: Node -> string)
    requires i < |imgs|
    ensures ImagesIn(imgs[..i + 1], role, src) ==
      ImagesIn(imgs[..i], role, src) + (if imgs[i].Some? && src(imgs[i].value) != "" then [ImageRef(src(imgs[i].value), role)] else [])
  {
    assert imgs[..i + 1] == imgs[..i] + [imgs[i]];
    ImagesInAppend(imgs[..i], [imgs[i]], role, src);
    ImagesInOne(imgs[i], role, src);
  }

  /** extractTurnUserContent: the question text and the user's attached images, all with role user. */
  method ExtractTurnUserContent(turn: Node, text: Node -> string, src: Node -> string) returns (result: Content)
    ensures result == UserContent(turn, text, src)
    ensures forall k :: 0 <= k < |result.images| ==> result.images[k].role == User && result.images[k].src != ""
  {
    result := Content("", []);
    var markdownEl := First(LightMatches(turn, QuestionMarkdownSelector));
    if markdownEl.Some? && markdownEl.value.shadow.Attached? {
      var span := First(ShadowMatches(markdownEl.value, QuestionSpanSelector));
      if span.Some? {
        result := result.(text := text(span.value));
      }
    }
    var summaryEl := First(LightMatches(turn, SummarySelector));
    if summaryEl.Some? && summaryEl.value.shadow.Attached? {
      var attachmentsEl := First(ShadowMatches(summaryEl.value, AttachmentsSelector));
      if attachmentsEl.Some? && attachmentsEl.value.shadow.Attached? {
        var containerEl := First(ShadowMatches(attachmentsEl.value, AttachmentContainerSelector));
        if containerEl.Some? {
          var images := CollectImages(LightMatches(containerEl.value, MarkdownImageSelector), User, src);
          result := result.(images := images);
        }
      }
    }
  }

  /** The nested lookups of extractTurnAIResponse that read the answer's HTML. */
  method ExtractAnswer(summary: Node, html: Node -> string) returns (answer: string)
    ensures answer == AnswerOf(summary, html)
  {
    ShadowPathSnoc(Some(summary), [], StreamerSelector);
    ShadowPathSnoc(Some(summary), [StreamerSelector], ResponseSelector);
    ShadowPathSnoc(Some(summary), [StreamerSelector, ResponseSelector], FastMarkdownSelector);
    ShadowPathSnoc(Some(summary), [StreamerSelector, ResponseSelector, FastMarkdownSelector], DocumentSelector);
    assert [] + [StreamerSelector] == [StreamerSelector];
    assert [StreamerSelector] + [ResponseSelector] == [StreamerSelector, ResponseSelector];
    assert [StreamerSelector, ResponseSelector] + [FastMarkdownSelector] == [StreamerSelector, ResponseSelector, FastMarkdownSelector];
    assert [StreamerSelector, ResponseSelector, FastMarkdownSelector] + [DocumentSelector] == AnswerPath;
    answer := "";
    if summary.shadow.Attached? {
      var containerEl := First(ShadowMatches(summary, StreamerSelector));
      if containerEl.Some? && containerEl.value.shadow.Attached? {
        var responseEl := First(ShadowMatches(containerEl.value, ResponseSelector));
        if responseEl.Some? && responseEl.value.shadow.Attached? {
          var markdownEl := First(ShadowMatches(responseEl.value, FastMarkdownSelector));
          if markdownEl.Some? && markdownEl.value.shadow.Attached? {
            var docEl := First(ShadowMatches(markdownEl.value, DocumentSelector));
            if docEl.Some? {
              answer := html(docEl.value);
            }
          }
        }
      }
    }
  }

  /**
    extractTurnAIResponse: the answer's HTML; images, with role ai, only when there is no answer
    text; nothing at all when the turn has no summary with a shadow root.
   */
  method ExtractTurnAIResponse(turn: Node, html: Node -> string, src: Node -> string) returns (result: Content)
    ensures result == AiContent(turn, html, src)
    ensures |result.images| > 0 ==> result.text == ""
    ensures forall k :: 0 <= k < |result.images| ==> result.images[k].role == Ai && result.images[k].src != ""
  {
    result := Content("", []);
    var summaryEl := First(LightMatches(turn, SummarySelector));
    if summaryEl.None? || !summaryEl.value.shadow.Attached? {
      return;
    }
    var answer := ExtractAnswer(summaryEl.value, html);
    result := result.(text := answer);
    if result.text == "" {
      var attachContainer := First(ShadowMatches(summaryEl.value, AttachmentContainerSelector));
      if attachContainer.Some? {
        var images := CollectImages(LightMatches(attachContainer.value, MarkdownImageSelector), Ai, src);
        result := result.(images := images);
      }
    }
  }

  // ---------------------------------------------------------------------------
  // extractMessages
  // ---------------------------------------------------------------------------

  /** What the two extractors return for one turn. */
  datatype TurnContent = TurnContent(user: Content, ai: Content)

  function TurnContentOf(turn: Node, text: Node -> string, html: Node -> string, src: Node -> string): TurnContent {
    TurnContent(UserContent(turn, text, src), AiContent(turn, html, src))
  }

  /** The extractors' results for each turn, in order. */
  function ContentsOf(turns: seq<Node>, text: Node -> string, html: Node -> string, src: Node -> string): seq<TurnContent>
  {
    seq(|turns|, i requires 0 <= i < |turns| => TurnContentOf(turns[i], text, html, src))
  }

  /** The messages of the turn at 1-based position `index`: user first, each only when non-empty. */
  function TurnMessages(tc: TurnContent, index: nat): (ms: seq<Message>)
    ensures |ms| <= 2
    ensures forall k :: 0 <= k < |ms| ==> ms[k].turnIndex == index && (ms[k].text != "" || |ms[k].images| > 0)
    ensures |ms| == 2 ==> ms[0].role == User && ms[1].role == Ai
  {
    (if HasContent(tc.user) then [Message(User, tc.user.text, tc.user.images, index)] else [])
      + (if HasContent(tc.ai) then [Message(Ai, tc.ai.text, tc.ai.images, index)] else [])
  }

  /** The messages of a list of turns, numbered from 1. */
  function MessagesOf(tcs: seq<TurnContent>): seq<Message> {
    if tcs == [] then []
    else MessagesOf(tcs[..|tcs| - 1]) + TurnMessages(tcs[|tcs| - 1], |tcs|)
  }

  /** Every message carries the 1-based number of an existing turn. */
  lemma {:induction false} MessagesOfIndices(tcs: seq<TurnContent>)
    ensures forall k :: 0 <= k < |MessagesOf(tcs)| ==> 1 <= MessagesOf(tcs)[k].turnIndex <= |tcs|
  {
    if tcs != [] {
      var head := MessagesOf(tcs[..|tcs| - 1]);
      var tail := TurnMessages(tcs[|tcs| - 1], |tcs|);
      MessagesOfIndices(tcs[..|tcs| - 1]);
      forall k | 0 <= k < |MessagesOf(tcs)| ensures 1 <= MessagesOf(tcs)[k].turnIndex <= |tcs| {
        if k < |head| {
          assert MessagesOf(tcs)[k] == head[k];
        } else {
          assert MessagesOf(tcs)[k] == tail[k - |head|];
        }
      }
    }
  }

  /**
    At most two messages per turn, none empty, turn numbers 1-based and non-decreasing, and within
    a turn the user's message before the AI's.
   */
  lemma {:induction false} MessagesOfShape(tcs: seq<TurnContent>)
    ensures var ms := MessagesOf(tcs);
      && |ms| <= 2 * |tcs|
      && (forall k :: 0 <= k < |ms| ==> 1 <= ms[k].turnIndex <= |tcs|)
      && (forall k :: 0 <= k < |ms| ==> ms[k].text != "" || |ms[k].images| > 0)
      && (forall j, k :: 0 <= j < k < |ms| ==>
            ms[j].turnIndex < ms[k].turnIndex || (ms[j].turnIndex == ms[k].turnIndex && ms[j].role == User && ms[k].role == Ai))
  {
    if tcs != [] {
      var head := MessagesOf(tcs[..|tcs| - 1]);
      var tail := TurnMessages(tcs[|tcs| - 1], |tcs|);
      MessagesOfShape(tcs[..|tcs| - 1]);
      var ms := head + tail;
      assert MessagesOf(tcs) == ms;
      forall k | 0 <= k < |ms| ensures ms[k] == if k < |head| then head[k] else tail[k - |head|] { }
    }
  }

  /** The messages numbered with turn t, in order. */
  function AtTurn(ms: seq<Message>, t: nat): seq<Message> {
    if ms == [] then []
    else AtTurn(ms[..|ms| - 1], t) + (if ms[|ms| - 1].turnIndex == t then [ms[|ms| - 1]] else [])
  }

  lemma {:induction false} AtTurnAppend(a: seq<Message>, b: seq<Message>, t: nat)
    ensures AtTurn(a + b, t) == AtTurn(a, t) + AtTurn(b, t)
    decreases |b|
  {
    if b == [] {
      assert a + b == a;
    } else {
      var front := b[..|b| - 1];
      assert (a + b)[..|a + b| - 1] == a + front;
      assert (a + b)[|a + b| - 1] == b[|b| - 1];
      AtTurnAppend(a, front, t);
    }
  }

  lemma {:induction false} AtTurnNone(ms: seq<Message>, t: nat)
    requires forall k :: 0 <= k < |ms| ==> ms[k].turnIndex != t
    ensures AtTurn(ms, t) == []
  {
    if ms != [] {
      AtTurnNone(ms[..|ms| - 1], t);
    }
  }

  lemma {:induction false} AtTurnAll(ms: seq<Message>, t: nat)
    requires forall k :: 0 <= k < |ms| ==> ms[k].turnIndex == t
    ensures AtTurn(ms, t) == ms
  {
    if ms != [] {
      AtTurnAll(ms[..|ms| - 1], t);
      assert ms[..|ms| - 1] + [ms[|ms| - 1]] == ms;
    }
  }

  /**
    The messages carrying turn number t (1-based) are exactly that turn's messages: a user message
    when the user extractor found text or images, then an AI message under the same rule, each
    with what its extractor returned.
   */
  lemma {:induction false} MessagesOfTurn(tcs: seq<TurnContent>, t: nat)
    requires 1 <= t <= |tcs|
    ensures AtTurn(MessagesOf(tcs), t) == TurnMessages(tcs[t - 1], t)
    decreases |tcs|
  {
    var n := |tcs|;
    var front := tcs[..n - 1];
    var head := MessagesOf(front);
    var tail := TurnMessages(tcs[n - 1], n);
    AtTurnAppend(head, tail, t);
    if t == n {
      MessagesOfIndices(front);
      AtTurnNone(head, t);
      AtTurnAll(tail, t);
    } else {
      MessagesOfTurn(front, t);
      assert front[t - 1] == tcs[t - 1];
      AtTurnNone(tail, t);
    }
  }

  /** The messages of one turn from what its two extractors returned: user first, each only when non-empty. */
  method AssembleTurn(user: Content, ai: Content, index: nat) returns (turnMessages: seq<Message>)
    ensures turnMessages == TurnMessages(TurnContent(user, ai), index)
  {
    turnMessages := [];
    if user.text != "" || |user.images| > 0 {
      turnMessages := turnMessages + [Message(User, user.text, user.images, index)];
    }
    if ai.text != "" || |ai.images| > 0 {
      turnMessages := turnMessages + [Message(Ai, ai.text, ai.images, index)];
    }
  }

  /** The body of extractMessages' forEach for one turn at 1-based position `index`. */
  method ExtractTurn(turn: Node, index: nat, text: Node -> string, html: Node -> string, src: Node -> string)
    returns (turnMessages: seq<Message>)
    ensures turnMessages == TurnMessages(TurnContentOf(turn, text, html, src), index)
  {
    var userContent := ExtractTurnUserContent(turn, text, src);
    var aiContent := ExtractTurnAIResponse(turn, html, src);
    turnMessages := AssembleTurn(userContent, aiContent, index);
  }

  /** The forEach of extractMessages over a list of turns, numbering them from 1. */
  method MessagesOfTurns(turns: seq<Node>, text: Node -> string, html: Node -> string, src: Node -> string)
    returns (messages: seq<Message>)
    ensures messages == MessagesOf(ContentsOf(turns, text, html, src))
  {
    messages := [];
    ghost var tcs := ContentsOf(turns, text, html, src);
    for turnIndex := 0 to |turns|
      invariant messages == MessagesOf(tcs[..turnIndex])
    {
      assert tcs[..turnIndex + 1][..turnIndex] == tcs[..turnIndex];
      var turnMessages := ExtractTurn(turns[turnIndex], turnIndex + 1, text, html, src);
      messages := messages + turnMessages;
    }
    assert tcs[..|turns|] == tcs;
  }

  /** extractMessages over the turns getTurns finds. */
  method ExtractMessages(document: Node, text: Node -> string, html: Node -> string, src: Node -> string)
    returns (messages: seq<Message>)
    ensures messages == MessagesOf(ContentsOf(GetTurns(document), text, html, src))
    ensures GetTurns(document) == [] ==> messages == []
  {
    messages := [];
    var turns := GetTurns(document);
    if |turns| == 0 {
      return;
    }
    messages := MessagesOfTurns(turns, text, html, src);
  }

  // ---------------------------------------------------------------------------
  // testClick
  // ---------------------------------------------------------------------------

  /** How testClick ends: with a boolean, or by throwing (missing chain link or no item at `index`). */
  datatype ClickOutcome = Threw | Returned(found: bool)

  /**
    The polling loop: one poll per second, stopping at the first poll whose getTurns() is
    non-empty; `turnsAt(i)` is what getTurns() returns at poll i.
   */
  method PollForTurns(turnsAt: nat -> seq<Node>) returns (found: bool, polls: nat)
    ensures found <==> exists i :: 0 <= i < PollLimit && turnsAt(i) != []
    ensures found ==> 1 <= polls <= PollLimit && turnsAt(polls - 1) != []
    ensures forall i :: 0 <= i < polls - 1 ==> turnsAt(i) == []
    ensures !found ==> polls == PollLimit
  {
    polls := 0;
    for i := 0 to PollLimit
      invariant polls == i
      invariant forall j :: 0 <= j < i ==> turnsAt(j) == []
    {
      polls := polls + 1;
      var turns := turnsAt(i);
      if |turns| > 0 {
        return true, polls;
      }
    }
    return false, polls;
  }

  /**
    testClick: click item `index`, then poll up to 15 times; `turnsAt(i)` is what getTurns()
    returns at poll i, after the click. Returns true at the first poll that sees turns, false
    after 15 empty polls or when there are no chat items.
   */
  method TestClick(document: Node, index: int, turnsAt: nat -> seq<Node>) returns (outcome: ClickOutcome, polls: nat)
    ensures GetChatItems(document) == Some([]) ==> outcome == Returned(false) && polls == 0
    ensures outcome == Threw <==>
      || GetChatItems(document).None?
      || (GetChatItems(document).value != [] && !(0 <= index < |GetChatItems(document).value|))
    ensures outcome == Returned(true) <==>
      && GetChatItems(document).Some?
      && 0 <= index < |GetChatItems(document).value|
      && exists i :: 0 <= i < PollLimit && turnsAt(i) != []
    ensures outcome == Returned(true) ==> 1 <= polls <= PollLimit && turnsAt(polls - 1) != []
    ensures forall i :: 0 <= i < polls - 1 ==> turnsAt(i) == []
  {
    var items := GetChatItems(document);
    if items.None? {
      return Threw, 0;
    }
    if |items.value| == 0 {
      return Returned(false), 0;
    }
    if index < 0 || index >= |items.value| {
      return Threw, 0;
    }
    var found;
    found, polls := PollForTurns(turnsAt);
    outcome := Returned(found);
  }
}
