/**
  The content script's selector engine, which looks through shadow roots: a deep path is a
  space-separated list of simple selectors, resolved one segment at a time, and each segment is
  looked up first among light-DOM descendants, then in the current element's own shadow tree,
  then in the shadow trees of its light-DOM descendants, recursively.

  The DOM's own `querySelector`/`querySelectorAll` are the functions `First` and `Filter` of module
  Dom over document-order candidate lists; the four engine functions are methods proved against
  the specification functions below.
 */
module DeepQuery {
  import opened Wrappers
  import opened Text
  import opened Dom

  /** `el.querySelectorAll(sel)`: matching light-DOM descendants in document order. */
  function LightMatches(n: Node, sel: string): seq<Node> {
    Filter(LightDesc(n), sel)
  }

  /** `el.shadowRoot.querySelectorAll(sel)`, or nothing when no shadow root is attached. */
  function ShadowMatches(n: Node, sel: string): seq<Node> {
    Filter(ShadowDesc(n), sel)
  }

  /** `host.shadowRoot.querySelector('img')`: the image inside a container's shadow root, if it hosts one. */
  function ShadowImg(host: Node): Option<Node> {
    if host.shadow.Attached? then First(ShadowMatches(host, "img")) else None
  }

  /** For each container, in order, the `<img>` in its shadow root if it has one. */
  function ContainerImgs(hosts: seq<Node>): seq<Option<Node>>
  {
    seq(|hosts|, i requires 0 <= i < |hosts| => ShadowImg(hosts[i]))
  }

  /**
    A container has an entry exactly when its shadow tree holds an `img`, and the entry is the
    first `img` of that tree in document order.
   */
  lemma ContainerImgsMeaning(hosts: seq<Node>, i: nat)
    requires i < |hosts|
    ensures ContainerImgs(hosts)[i].Some? <==> exists x :: x in ShadowDesc(hosts[i]) && Matches(x, "img")
    ensures ContainerImgs(hosts)[i].Some? ==>
      var tree := ShadowDesc(hosts[i]);
      exists j :: (0 <= j < |tree| && tree[j] == ContainerImgs(hosts)[i].value && Matches(tree[j], "img")
                   && forall k :: 0 <= k < j ==> !Matches(tree[k], "img"))
  {
    var tree := ShadowDesc(hosts[i]);
    FilterMembers(tree, "img");
    if Filter(tree, "img") != [] {
      FilterFirst(tree, "img");
    }
  }

  // ---------------------------------------------------------------------------
  // Specification of querySelectorAllInShadow
  // ---------------------------------------------------------------------------

  /** The lists `f` gives for each of `xs`, concatenated in order. */
  function ConcatMap(xs: seq<Node>, f: Node -> seq<Node>): seq<Node> {
    if xs == [] then [] else ConcatMap(xs[..|xs| - 1], f) + f(xs[|xs| - 1])
  }

  lemma {:induction false} ConcatMapAppend(a: seq<Node>, b: seq<Node>, f: Node -> seq<Node>)
    ensures ConcatMap(a + b, f) == ConcatMap(a, f) + ConcatMap(b, f)
    decreases |b|
  {
    if b == [] {
      assert a + b == a;
    } else {
      var front := b[..|b| - 1];
      var last := b[|b| - 1];
      var ab := a + b;
      assert ab[..|ab| - 1] == a + front;
      assert ab[|ab| - 1] == last;
      ConcatMapAppend(a, front, f);
      calc {
        ConcatMap(ab, f);
        ConcatMap(a + front, f) + f(last);
        (ConcatMap(a, f) + ConcatMap(front, f)) + f(last);
        ConcatMap(a, f) + (ConcatMap(front, f) + f(last));
        ConcatMap(a, f) + ConcatMap(b, f);
      }
    }
  }

  /** Each element's whole list occurs, as a sub-multiset, in the concatenation. */
  lemma {:induction false} ConcatMapIncluded(xs: seq<Node>, f: Node -> seq<Node>, c: Node)
    requires c in xs
    ensures multiset(f(c)) <= multiset(ConcatMap(xs, f))
    decreases |xs|
  {
    var front := xs[..|xs| - 1];
    if c != xs[|xs| - 1] {
      assert c in front by {
        assert xs == front + [xs[|xs| - 1]];
      }
      ConcatMapIncluded(front, f, c);
    }
  }

  /** Whatever the concatenation holds comes from the list of some element. */
  lemma {:induction false} ConcatMapMember(xs: seq<Node>, f: Node -> seq<Node>, x: Node)
    requires x in ConcatMap(xs, f)
    ensures exists c :: c in xs && x in f(c)
    decreases |xs|
  {
    var front := xs[..|xs| - 1];
    if x !in f(xs[|xs| - 1]) {
      ConcatMapMember(front, f, x);
      var c :| c in front && x in f(c);
      assert c in xs;
    }
  }

  /**
    The list querySelectorAllInShadow(root, sel) builds: the matches in root's own shadow tree,
    then, for each light-DOM descendant hosting a shadow root in document order, the matches in
    that host's shadow tree followed by the host's own recursive result.
   */
  function AllInShadow(root: Node, sel: string): seq<Node>
    decreases Size(root), 2
  {
    ShadowMatches(root, sel) + Hosts(root, LightDesc(root), sel)
  }

  /** The contributions of the hosts among `xs`, a prefix of root's light-DOM descendants. */
  function Hosts(root: Node, xs: seq<Node>, sel: string): seq<Node>
    decreases Size(root), 1
  {
    ConcatMap(xs, Contribution(root, sel))
  }

  /**
    What a light-DOM descendant of root adds. Every such descendant is smaller than root
    (LightDescSmaller), so the size guard, which makes the recursion well-founded, always holds
    where AllInShadow uses it.
   */
  function Contribution(root: Node, sel: string): Node -> seq<Node>
    decreases Size(root), 0
  {
    c => if Size(c) < Size(root) then HostPart(c, sel) else []
  }

  /** What one light-DOM descendant adds: its shadow matches, then its recursive result. */
  function HostPart(c: Node, sel: string): seq<Node>
    decreases Size(c), 3
  {
    if c.shadow.Attached? then ShadowMatches(c, sel) + AllInShadow(c, sel) else []
  }

  /** x lies in root's shadow tree, or in the shadow tree of one of root's light-DOM descendants. */
  predicate InShadowReach(root: Node, x: Node) {
    x in ShadowDesc(root) || exists c :: c in LightDesc(root) && x in ShadowDesc(c)
  }

  /** The list splits around the i-th descendant's contribution. */
  lemma HostsSplit(root: Node, xs: seq<Node>, i: nat, sel: string)
    requires i < |xs| && Size(xs[i]) < Size(root)
    ensures Hosts(root, xs, sel) == Hosts(root, xs[..i], sel) + HostPart(xs[i], sel) + Hosts(root, xs[i + 1..], sel)
  {
    var f := Contribution(root, sel);
    assert xs == xs[..i + 1] + xs[i + 1..];
    ConcatMapAppend(xs[..i + 1], xs[i + 1..], f);
    assert xs[..i + 1][..i] == xs[..i];
    assert f(xs[i]) == HostPart(xs[i], sel);
  }

  /** Each host's whole contribution occurs, as a sub-multiset, in the combined list. */
  lemma HostPartIncluded(root: Node, xs: seq<Node>, c: Node, sel: string)
    requires c in xs && Size(c) < Size(root)
    ensures multiset(HostPart(c, sel)) <= multiset(Hosts(root, xs, sel))
  {
    ConcatMapIncluded(xs, Contribution(root, sel), c);
  }

  /** Whatever the combined list holds comes from some host's contribution. */
  lemma HostsMember(root: Node, xs: seq<Node>, x: Node, sel: string)
    requires x in Hosts(root, xs, sel)
    ensures exists c :: c in xs && x in HostPart(c, sel)
  {
    var f := Contribution(root, sel);
    ConcatMapMember(xs, f, x);
    var c :| c in xs && x in f(c);
    assert x in HostPart(c, sel);
  }

  /** Soundness: every listed node matches and lies in a shadow tree the search is allowed into. */
  lemma {:induction false} AllInShadowSound(root: Node, sel: string, x: Node)
    requires x in AllInShadow(root, sel)
    ensures Matches(x, sel) && InShadowReach(root, x)
    decreases Size(root)
  {
    LightDescSmaller(root);
    FilterMembers(ShadowDesc(root), sel);
    if x !in ShadowMatches(root, sel) {
      HostsMember(root, LightDesc(root), x, sel);
      var c :| c in LightDesc(root) && x in HostPart(c, sel);
      FilterMembers(ShadowDesc(c), sel);
      if x !in ShadowMatches(c, sel) {
        AllInShadowSound(c, sel, x);
        if x !in ShadowDesc(c) {
          var d :| d in LightDesc(c) && x in ShadowDesc(d);
          FlattenTransitive(root.children, c, d);
        }
      }
    }
  }

  /**
    querySelectorAllInShadow(root, sel) lists exactly the matching nodes of root's shadow tree and
    of the shadow trees hosted by root's light-DOM descendants.
   */
  lemma AllInShadowMembers(root: Node, sel: string, x: Node)
    ensures x in AllInShadow(root, sel) <==> Matches(x, sel) && InShadowReach(root, x)
  {
    if Matches(x, sel) && InShadowReach(root, x) {
      LightDescSmaller(root);
      FilterMembers(ShadowDesc(root), sel);
      if x !in ShadowDesc(root) {
        var c :| c in LightDesc(root) && x in ShadowDesc(c);
        FilterMembers(ShadowDesc(c), sel);
        HostPartIncluded(root, LightDesc(root), c, sel);
        assert x in HostPart(c, sel);
        assert x in multiset(Hosts(root, LightDesc(root), sel));
      }
    }
    if x in AllInShadow(root, sel) {
      AllInShadowSound(root, sel, x);
    }
  }

  /**
    A match inside the shadow tree of a light-DOM descendant is listed at least twice: once for
    the host, and again as the first part of the host's own recursive result.
   */
  lemma DuplicateMatches(root: Node, c: Node, sel: string, m: Node)
    requires c in LightDesc(root)
    requires m in ShadowMatches(c, sel)
    ensures multiset(AllInShadow(root, sel))[m] >= 2
  {
    LightDescSmaller(root);
    HostPartIncluded(root, LightDesc(root), c, sel);
    assert m in AllInShadow(c, sel);
    assert HostPart(c, sel) == ShadowMatches(c, sel) + AllInShadow(c, sel);
  }

  /** Shadow roots inside shadow trees are not searched. */
  lemma NestedShadowNotSearched()
    ensures
      var inner := Node(3, {"x"}, [], NoShadow);
      var host := Node(2, {}, [], Attached([inner]));
      var root := Node(1, {}, [], Attached([host]));
      Matches(inner, "x") && AllInShadow(root, "x") == []
  {
    var inner := Node(3, {"x"}, [], NoShadow);
    var host := Node(2, {}, [], Attached([inner]));
    var root := Node(1, {}, [], Attached([host]));
    assert [host][1..] == [];
    assert Flatten([host]) == [host];
    assert ShadowMatches(root, "x") == [];
    assert LightDesc(root) == [];
  }

  // ---------------------------------------------------------------------------
  // querySelectorInShadow and querySelectorAllInShadow
  // ---------------------------------------------------------------------------

  lemma HostsExtend(root: Node, xs: seq<Node>, i: nat, sel: string)
    requires i < |xs| && Size(xs[i]) < Size(root)
    ensures Hosts(root, xs[..i + 1], sel) == Hosts(root, xs[..i], sel) + HostPart(xs[i], sel)
  {
    assert xs[..i + 1][..i] == xs[..i];
    assert Contribution(root, sel)(xs[i]) == HostPart(xs[i], sel);
  }

  lemma AppendAssoc(a: seq<Node>, b: seq<Node>, c: seq<Node>)
    ensures (a + b) + c == a + (b + c)
  {
  }

  lemma FirstOfAppend(a: seq<Node>, b: seq<Node>)
    requires a != []
    ensures First(a + b) == First(a)
  {
    assert (a + b)[0] == a[0];
  }

  lemma FirstOfEmptyAppend(a: seq<Node>, b: seq<Node>)
    requires a == []
    ensures First(a + b) == First(b)
  {
    assert a + b == b;
  }

  /** querySelectorInShadow: the first node of the list querySelectorAllInShadow would build. */
  method QuerySelectorInShadow(root: Node, sel: string) returns (found: Option<Node>)
    ensures found == First(AllInShadow(root, sel))
    decreases Size(root), 1
  {
    LightDescSmaller(root);
    if root.shadow.Attached? {
      found := First(ShadowMatches(root, sel));
      if found.Some? {
        FirstOfAppend(ShadowMatches(root, sel), Hosts(root, LightDesc(root), sel));
        return;
      }
    }
    found := FirstInHosts(root, LightDesc(root), sel);
    FirstOfEmptyAppend(ShadowMatches(root, sel), Hosts(root, LightDesc(root), sel));
  }

  /** The loop of querySelectorInShadow over root's light-DOM descendants. */
  method FirstInHosts(root: Node, children: seq<Node>, sel: string) returns (found: Option<Node>)
    requires forall x :: x in children ==> Size(x) < Size(root)
    ensures found == First(Hosts(root, children, sel))
    decreases Size(root), 0
  {
    for i := 0 to |children|
      invariant Hosts(root, children[..i], sel) == []
    {
      var child := children[i];
      HostsExtend(root, children, i, sel);
      if child.shadow.Attached? {
        found := First(ShadowMatches(child, sel));
        if found.Some? {
          HostsSplit(root, children, i, sel);
          FirstOfAppend(ShadowMatches(child, sel), AllInShadow(child, sel) + Hosts(root, children[i + 1..], sel));
          return;
        }
        found := QuerySelectorInShadow(child, sel);
        if found.Some? {
          HostsSplit(root, children, i, sel);
          FirstOfAppend(AllInShadow(child, sel), Hosts(root, children[i + 1..], sel));
          return;
        }
      }
    }
    assert children[..|children|] == children;
    return None;
  }

  /** querySelectorAllInShadow: the list specified by AllInShadow. */
  method QuerySelectorAllInShadow(root: Node, sel: string) returns (results: seq<Node>)
    ensures results == AllInShadow(root, sel)
    decreases Size(root), 1
  {
    results := [];
    if root.shadow.Attached? {
      results := ShadowMatches(root, sel);
    }
    LightDescSmaller(root);
    var hosted := AllInHosts(root, LightDesc(root), sel);
    results := results + hosted;
  }

  /** The loop of querySelectorAllInShadow over root's light-DOM descendants. */
  method AllInHosts(root: Node, children: seq<Node>, sel: string) returns (results: seq<Node>)
    requires forall x :: x in children ==> Size(x) < Size(root)
    ensures results == Hosts(root, children, sel)
    decreases Size(root), 0
  {
    results := [];
    for i := 0 to |children|
      invariant results == Hosts(root, children[..i], sel)
    {
      var child := children[i];
      HostsExtend(root, children, i, sel);
      if child.shadow.Attached? {
        var shadowResults := ShadowMatches(child, sel);
        var deepResults := QuerySelectorAllInShadow(child, sel);
        results := results + (shadowResults + deepResults);
      }
    }
    assert children[..|children|] == children;
  }

  // ---------------------------------------------------------------------------
  // Deep paths: querySelectorDeep and querySelectorAllDeep
  // ---------------------------------------------------------------------------

  /** One segment of querySelectorDeep: light DOM, then own shadow root, then hosted shadow trees. */
  function Step(current: Node, part: string): Option<Node> {
    var light := First(LightMatches(current, part));
    if light.Some? then light
    else
      var own := First(ShadowMatches(current, part));
      if own.Some? then own else First(AllInShadow(current, part))
  }

  /** Resolve the remaining segments from `current`; no segments left yields `current`. */
  function Resolve(current: Node, parts: seq<string>): Option<Node>
    decreases |parts|
  {
    if parts == [] then Some(current)
    else
      match Step(current, parts[0])
      case None => None
      case Some(next) => Resolve(next, parts[1..])
  }

  /** What querySelectorDeep(selectors) returns, searching from `document`. */
  function Deep(document: Node, selectors: string): Option<Node> {
    var parts := Segments(selectors);
    if parts == [] then None else Resolve(document, parts)
  }

  /** The tiers querySelectorAllDeep tries on the parent, each only when the previous found nothing. */
  function Tiered(parent: Node, sel: string): seq<Node> {
    var light := LightMatches(parent, sel);
    if light != [] then light
    else
      var own := ShadowMatches(parent, sel);
      if own != [] then own else AllInShadow(parent, sel)
  }

  /** What querySelectorAllDeep(selectors) returns, searching from `document`. */
  function AllDeep(document: Node, selectors: string): seq<Node> {
    var parts := Segments(selectors);
    if parts == [] then []
    else
      match Resolve(document, parts[..|parts| - 1])
      case None => []
      case Some(parent) => Tiered(parent, parts[|parts| - 1])
  }

  /** The own-shadow-root tier is subsumed by the hosted-shadow tier, which starts with it. */
  lemma StepIsFirstOfTiers(current: Node, part: string)
    ensures Step(current, part) == First(LightMatches(current, part) + AllInShadow(current, part))
  {
  }

  /** A segment resolves to a matching node reachable from `current`, preferring the light DOM. */
  lemma StepSound(current: Node, part: string)
    ensures Step(current, part).Some? ==>
      var e := Step(current, part).value;
      Matches(e, part) && (e in LightDesc(current) || InShadowReach(current, e))
    ensures LightMatches(current, part) != [] ==> Step(current, part) == Some(LightMatches(current, part)[0])
  {
    var light := LightMatches(current, part);
    FilterMembers(LightDesc(current), part);
    FilterMembers(ShadowDesc(current), part);
    if light == [] && Step(current, part).Some? {
      var e := Step(current, part).value;
      var own := ShadowMatches(current, part);
      if own == [] {
        assert e == AllInShadow(current, part)[0];
        AllInShadowSound(current, part, e);
      }
    }
  }

  /** A segment fails to resolve exactly when no reachable node matches it. */
  lemma StepNoneIff(current: Node, part: string)
    ensures Step(current, part).None? <==>
      forall x :: (x in LightDesc(current) || InShadowReach(current, x)) ==> !Matches(x, part)
  {
    if Step(current, part).None? {
      forall x | x in LightDesc(current) || InShadowReach(current, x)
        ensures !Matches(x, part)
      {
        FilterMembers(LightDesc(current), part);
        AllInShadowMembers(current, part, x);
      }
    } else {
      StepSound(current, part);
    }
  }

  /** The single-result lookup is the head of the all-results lookup, for any parent. */
  lemma StepIsFirstOfTiered(parent: Node, sel: string)
    ensures Step(parent, sel) == First(Tiered(parent, sel))
  {
  }

  lemma {:induction false} ResolveAppend(current: Node, a: seq<string>, b: seq<string>)
    ensures Resolve(current, a + b) ==
      match Resolve(current, a)
      case None => None
      case Some(p) => Resolve(p, b)
    decreases |a|
  {
    if a == [] {
      assert a + b == b;
    } else {
      assert (a + b)[0] == a[0] && (a + b)[1..] == a[1..] + b;
      match Step(current, a[0])
      case None =>
      case Some(next) => ResolveAppend(next, a[1..], b);
    }
  }

  /** A resolved path ends at a node matching its last segment. */
  lemma {:induction false} ResolveMatchesLast(current: Node, parts: seq<string>)
    requires parts != [] && Resolve(current, parts).Some?
    ensures Matches(Resolve(current, parts).value, parts[|parts| - 1])
    decreases |parts|
  {
    var next := Step(current, parts[0]).value;
    StepSound(current, parts[0]);
    if |parts| > 1 {
      ResolveMatchesLast(next, parts[1..]);
    }
  }

  /** querySelectorDeep(s) is always the first element of querySelectorAllDeep(s). */
  lemma DeepIsFirstOfAllDeep(document: Node, selectors: string)
    ensures Deep(document, selectors) == First(AllDeep(document, selectors))
  {
    var parts := Segments(selectors);
    if parts != [] {
      var prefix := parts[..|parts| - 1];
      var last := parts[|parts| - 1];
      assert parts == prefix + [last];
      ResolveAppend(document, prefix, [last]);
      match Resolve(document, prefix)
      case None =>
      case Some(parent) =>
        StepIsFirstOfTiered(parent, last);
        assert Resolve(parent, [last]) == Step(parent, last);
    }
  }

  /** querySelectorDeep. */
  method QuerySelectorDeep(document: Node, selectors: string) returns (r: Option<Node>)
    ensures r == Deep(document, selectors)
    ensures (forall i :: 0 <= i < |selectors| ==> selectors[i] == ' ') ==> r.None?
    ensures r.Some? ==> Matches(r.value, Segments(selectors)[|Segments(selectors)| - 1])
  {
    NoSegmentsIffBlank(selectors);
    var parts := Segments(selectors);
    if |parts| == 0 {
      return None;
    }
    var current := document;
    for i := 0 to |parts|
      invariant Resolve(document, parts) == Resolve(current, parts[i..])
    {
      var part := parts[i];
      assert parts[i..][0] == part && parts[i..][1..] == parts[i + 1..];
      var element := First(LightMatches(current, part));
      if element.None? && current.shadow.Attached? {
        element := First(ShadowMatches(current, part));
      }
      if element.None? {
        element := QuerySelectorInShadow(current, part);
      }
      if element.None? {
        return None;
      }
      current := element.value;
    }
    assert parts[|parts|..] == [];
    r := Some(current);
    ResolveMatchesLast(document, parts);
  }

  /** The three tiers querySelectorAllDeep tries on the resolved parent. */
  method TieredQuery(p: Node, sel: string) returns (results: seq<Node>)
    ensures results == Tiered(p, sel)
  {
    results := LightMatches(p, sel);
    if |results| == 0 && p.shadow.Attached? {
      results := ShadowMatches(p, sel);
    }
    if |results| == 0 {
      results := QuerySelectorAllInShadow(p, sel);
    }
  }

  /** querySelectorAllDeep: resolve all but the last segment, then list matches of the last. */
  method QuerySelectorAllDeep(document: Node, selectors: string) returns (results: seq<Node>)
    ensures results == AllDeep(document, selectors)
  {
    var parts := Segments(selectors);
    if |parts| == 0 {
      return [];
    }
    var lastSelector := parts[|parts| - 1];
    var prefix := parts[..|parts| - 1];
    var parentPath := Join(prefix);
    var parent: Option<Node>;
    if parentPath != "" {
      SegmentsOfJoin(prefix);
      assert Segments(parentPath) == prefix;
      parent := QuerySelectorDeep(document, parentPath);
      assert parent == Resolve(document, prefix);
    } else {
      if prefix != [] {
        JoinNonEmpty(prefix);
      }
      assert prefix == [];
      parent := Some(document);
      assert parent == Resolve(document, prefix);
    }
    if parent.None? {
      return [];
    }
    results := TieredQuery(parent.value, lastSelector);
  }
}
