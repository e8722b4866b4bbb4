/**
  The DOM checker's data extraction: the sample summary of the first conversation turns and the
  image lists under the user's question and under the AI answer. Elements are found with the deep
  query engine; an element's trimmed text, its outerHTML and an image element's properties are
  read through the parameters `text`, `html` and `attrs`.
 */
module DomChecker {
  import opened Wrappers
  import opened Text
  import opened Dom
  import opened DeepQuery

  const TurnsPath := "ucs-standalone-app .ucs-standalone-outer-row-container ucs-results ucs-conversation .main .turn"
  const UserTextSelector := ".question-block ucs-fast-markdown .markdown-document p span"
  const AiHtmlSelector :=
    ".ucs-summary .summary-container .summary-contents ucs-text-streamer ucs-response-markdown ucs-fast-markdown .markdown-document"
  const UserImagesPath := TurnsPath + " .question-block ucs-summary ucs-summary-attachments .attachment-container ucs-markdown-image"
  const AiImagesPath := TurnsPath + " .ucs-summary .attachment-container ucs-markdown-image"

  /** How many turns the sample details. */
  const SampleTurns := 2
  /** How many characters of the AI answer's HTML the sample keeps. */
  const HtmlPreview := 200

  /** The properties of an `<img>` element: `src`, the raw `src` attribute (absent: null), `alt`. */
  datatype ImgElement = ImgElement(src: string, srcAttribute: Option<string>, alt: string)

  /** An extracted image record `{src, alt}`; `src` is null when neither property nor attribute has one. */
  datatype Image = Image(src: Option<string>, alt: string)

  datatype TurnSample = TurnSample(index: nat, userText: string, userImages: seq<Image>, aiHtml: string, aiImages: seq<Image>)

  datatype SampleData = SampleData(totalTurns: nat, turns: seq<TurnSample>)

  // ---------------------------------------------------------------------------
  // extractSampleData
  // ---------------------------------------------------------------------------

  /** `turn.querySelector(sel)`, and only when that finds nothing, `turn.shadowRoot.querySelector(sel)`. */
  function LightThenShadow(turn: Node, sel: string): (r: Option<Node>)
    ensures r.Some? ==> Matches(r.value, sel) && (r.value in LightDesc(turn) || r.value in ShadowDesc(turn))
    ensures LightMatches(turn, sel) != [] ==> r == Some(LightMatches(turn, sel)[0])
  {
    FilterMembers(LightDesc(turn), sel);
    FilterMembers(ShadowDesc(turn), sel);
    var light := First(LightMatches(turn, sel));
    if light.Some? then light
    else if turn.shadow.Attached? then First(ShadowMatches(turn, sel))
    else None
  }

  /** The summary of one turn at 1-based position `index`. */
  function SampleOf(turn: Node, index: nat, text: Node -> string, html: Node -> string): (s: TurnSample)
    ensures s.index == index && s.userImages == [] && s.aiImages == []
    ensures |s.aiHtml| <= HtmlPreview
    ensures LightThenShadow(turn, AiHtmlSelector).Some? ==>
      var full := html(LightThenShadow(turn, AiHtmlSelector).value);
      s.aiHtml <= full && |s.aiHtml| == if |full| < HtmlPreview then |full| else HtmlPreview
    ensures LightThenShadow(turn, AiHtmlSelector).None? ==> s.aiHtml == ""
    ensures s.userText == match LightThenShadow(turn, UserTextSelector) case Some(e) => text(e) case None => ""
  {
    var userText := match LightThenShadow(turn, UserTextSelector) case Some(e) => text(e) case None => "";
    var aiHtml := match LightThenShadow(turn, AiHtmlSelector) case Some(e) => Take(html(e), HtmlPreview) case None => "";
    TurnSample(index, userText, [], aiHtml, [])
  }

  /** The sample for a list of turns: its length, and the summaries `sample` makes of the first two. */
  method SummariseTurns(turns: seq<Node>, sample: (Node, nat) -> TurnSample) returns (data: SampleData)
    ensures data.totalTurns == |turns|
    ensures |data.turns| == if |turns| < SampleTurns then |turns| else SampleTurns
    ensures forall k :: 0 <= k < |data.turns| ==> data.turns[k] == sample(turns[k], k + 1)
  {
    var first := if |turns| < SampleTurns then turns else turns[..SampleTurns];
    var samples: seq<TurnSample> := [];
    for index := 0 to |first|
      invariant |samples| == index
      invariant forall k :: 0 <= k < index ==> samples[k] == sample(turns[k], k + 1)
    {
      assert first[index] == turns[index];
      samples := samples + [sample(first[index], index + 1)];
    }
    data := SampleData(|turns|, samples);
  }

  /** extractSampleData, over the turns found at the turn path. */
  method ExtractSampleData(document: Node, text: Node -> string, html: Node -> string) returns (data: SampleData)
    ensures data.totalTurns == |AllDeep(document, TurnsPath)|
    ensures |data.turns| == if data.totalTurns < SampleTurns then data.totalTurns else SampleTurns
    ensures forall k :: 0 <= k < |data.turns| ==>
      data.turns[k] == SampleOf(AllDeep(document, TurnsPath)[k], k + 1, text, html)
    ensures forall k :: 0 <= k < |data.turns| ==> data.turns[k].index == k + 1 && |data.turns[k].aiHtml| <= HtmlPreview
  {
    var turns := QuerySelectorAllDeep(document, TurnsPath);
    var sample := (t: Node, k: nat) => SampleOf(t, k, text, html);
    data := SummariseTurns(turns, sample);
    forall k | 0 <= k < |data.turns|
      ensures data.turns[k] == SampleOf(turns[k], k + 1, text, html)
      ensures data.turns[k].index == k + 1 && |data.turns[k].aiHtml| <= HtmlPreview
    {
      assert data.turns[k] == sample(turns[k], k + 1);
    }
  }

  // ---------------------------------------------------------------------------
  // extractUserImages / extractAIImages
  // ---------------------------------------------------------------------------

  /** `{src: img.src || img.getAttribute('src'), alt: img.alt || ''}`. */
  function ImageOf(e: ImgElement): Image {
    Image(if e.src != "" then Some(e.src) else e.srcAttribute, e.alt)
  }

  /** The image records of the images found, in container order; containers without one are skipped. */
  function ImagesOf(imgs: seq<Option<Node>>, attrs: Node -> ImgElement): seq<Image> {
    if imgs == [] then []
    else
      var front := ImagesOf(imgs[..|imgs| - 1], attrs);
      match imgs[|imgs| - 1]
      case None => front
      case Some(img) => front + [ImageOf(attrs(img))]
  }

  /** One record per container at most, and one for each exactly when every container holds an image. */
  lemma {:induction false} ImagesOfLength(imgs: seq<Option<Node>>, attrs: Node -> ImgElement)
    ensures |ImagesOf(imgs, attrs)| <= |imgs|
    ensures |ImagesOf(imgs, attrs)| == |imgs| <==> forall i :: 0 <= i < |imgs| ==> imgs[i].Some?
  {
    if imgs != [] {
      var front := imgs[..|imgs| - 1];
      ImagesOfLength(front, attrs);
      if imgs[|imgs| - 1].None? {
        assert ImagesOf(imgs, attrs) == ImagesOf(front, attrs);
      } else {
        assert forall i :: 0 <= i < |front| ==> front[i] == imgs[i];
      }
    }
  }

  /** The records are those of the found images, in order. */
  lemma {:induction false} ImagesOfMembers(imgs: seq<Option<Node>>, attrs: Node -> ImgElement)
    ensures forall r :: r in ImagesOf(imgs, attrs) <==> exists i :: 0 <= i < |imgs| && imgs[i].Some? && r == ImageOf(attrs(imgs[i].value))
  {
    if imgs != [] {
      var front := imgs[..|imgs| - 1];
      ImagesOfMembers(front, attrs);
      assert forall i :: 0 <= i < |front| ==> front[i] == imgs[i];
    }
  }

  /** The image records of the containers found at `path`. */
  method ExtractImages(document: Node, path: string, attrs: Node -> ImgElement) returns (images: seq<Image>)
    ensures images == ImagesOf(ContainerImgs(AllDeep(document, path)), attrs)
    ensures |images| <= |AllDeep(document, path)|
  {
    var containers := QuerySelectorAllDeep(document, path);
    ghost var found := ContainerImgs(containers);
    images := [];
    for i := 0 to |containers|
      invariant images == ImagesOf(found[..i], attrs)
    {
      assert found[..i + 1][..i] == found[..i];
      var imgEl := containers[i];
      if imgEl.shadow.Attached? {
        var img := First(ShadowMatches(imgEl, "img"));
        if img.Some? {
          images := images + [ImageOf(attrs(img.value))];
        }
      }
    }
    assert found[..|containers|] == found;
    ImagesOfLength(found, attrs);
  }

  /** extractUserImages. */
  method ExtractUserImages(document: Node, attrs: Node -> ImgElement) returns (images: seq<Image>)
    ensures images == ImagesOf(ContainerImgs(AllDeep(document, UserImagesPath)), attrs)
  {
    images := ExtractImages(document, UserImagesPath, attrs);
  }

  /** extractAIImages. */
  method ExtractAIImages(document: Node, attrs: Node -> ImgElement) returns (images: seq<Image>)
    ensures images == ImagesOf(ContainerImgs(AllDeep(document, AiImagesPath)), attrs)
  {
    images := ExtractImages(document, AiImagesPath, attrs);
  }
}
