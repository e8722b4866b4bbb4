/**
  The part of the page's document tree the deep query engine looks at. An element has light-DOM
  children and, when it hosts one, a shadow root whose top-level nodes are listed separately.
  Which simple selectors an element satisfies is given by the set `labels`: CSS matching itself
  is not modelled.
 */
module Dom {
  import opened Wrappers

  datatype Node = Node(id: nat, labels: set<string>, children: seq<Node>, shadow: Shadow)

  /** An element's shadow root, when one is attached, by its top-level nodes. */
  datatype Shadow = NoShadow | Attached(roots: seq<Node>)

  /** `element.matches(sel)` for a simple selector (one segment of a deep path). */
  predicate Matches(n: Node, sel: string) {
    sel in n.labels
  }

  /**
    The nodes of the forests `cs`, each followed by its light-DOM descendants: document (pre)order.
    Shadow roots are not entered, as with the DOM's own `querySelectorAll('*')`.
   */
  function Flatten(cs: seq<Node>): seq<Node>
    decreases cs
  {
    if cs == [] then [] else [cs[0]] + Flatten(cs[0].children) + Flatten(cs[1..])
  }

  /** `element.querySelectorAll('*')`: every light-DOM descendant, in document order. */
  function LightDesc(n: Node): seq<Node> {
    Flatten(n.children)
  }

  /** `element.shadowRoot.querySelectorAll('*')`, or nothing when there is no shadow root. */
  function ShadowDesc(n: Node): seq<Node> {
    if n.shadow.Attached? then Flatten(n.shadow.roots) else []
  }

  /** `querySelectorAll(sel)` over a candidate list in document order: the matching ones, in order. */
  function Filter(xs: seq<Node>, sel: string): (r: seq<Node>)
    ensures |r| <= |xs|
  {
    if xs == [] then []
    else if Matches(xs[0], sel) then [xs[0]] + Filter(xs[1..], sel)
    else Filter(xs[1..], sel)
  }

  /** The matches are exactly the candidates that match. */
  lemma {:induction false} FilterMembers(xs: seq<Node>, sel: string)
    ensures forall x :: x in Filter(xs, sel) <==> x in xs && Matches(x, sel)
  {
    if xs != [] {
      FilterMembers(xs[1..], sel);
      assert xs == [xs[0]] + xs[1..];
    }
  }

  /** The first match is a candidate with no matching candidate before it. */
  lemma {:induction false} FilterFirst(xs: seq<Node>, sel: string)
    requires Filter(xs, sel) != []
    ensures exists j :: (0 <= j < |xs| && xs[j] == Filter(xs, sel)[0] && Matches(xs[j], sel)
                         && forall k :: 0 <= k < j ==> !Matches(xs[k], sel))
  {
    if !Matches(xs[0], sel) {
      var rest := xs[1..];
      FilterFirst(rest, sel);
      var j :| (0 <= j < |rest| && rest[j] == Filter(rest, sel)[0] && Matches(rest[j], sel)
                && forall k :: 0 <= k < j ==> !Matches(rest[k], sel));
      forall k | 0 < k < j + 1
        ensures !Matches(xs[k], sel)
      {
        assert xs[k] == rest[k - 1];
      }
      assert xs[j + 1] == rest[j];
    }
  }

  /** The first element of a list, as `querySelector` returns it (`null` when empty). */
  function First(xs: seq<Node>): (r: Option<Node>)
    ensures r.Some? <==> xs != []
    ensures r.Some? ==> r.value == xs[0]
  {
    if xs == [] then None else Some(xs[0])
  }

  lemma FilterAppend(a: seq<Node>, b: seq<Node>, sel: string)
    ensures Filter(a + b, sel) == Filter(a, sel) + Filter(b, sel)
  {
    if a != [] {
      var ab := a + b;
      assert ab[0] == a[0] && ab[1..] == a[1..] + b;
      FilterAppend(a[1..], b, sel);
      if Matches(a[0], sel) {
        assert Filter(ab, sel) == [a[0]] + Filter(ab[1..], sel);
      } else {
        assert Filter(ab, sel) == Filter(ab[1..], sel);
      }
    } else {
      assert a + b == b;
    }
  }

  /** Number of nodes in a forest, counting shadow trees: the measure deep searches descend on. */
  function SeqSize(cs: seq<Node>): nat
    decreases cs
  {
    if cs == [] then 0
    else
      1 + SeqSize(cs[0].children)
        + (if cs[0].shadow.Attached? then SeqSize(cs[0].shadow.roots) else 0)
        + SeqSize(cs[1..])
  }

  function Size(n: Node): nat {
    SeqSize([n])
  }

  lemma SizeUnfold(n: Node)
    ensures Size(n) == 1 + SeqSize(n.children) + (if n.shadow.Attached? then SeqSize(n.shadow.roots) else 0)
  {
    var one := [n];
    assert one[0] == n && one[1..] == [];
    assert SeqSize(one) == 1 + SeqSize(one[0].children)
      + (if one[0].shadow.Attached? then SeqSize(one[0].shadow.roots) else 0) + SeqSize(one[1..]);
  }

  lemma {:induction false} FlattenSmaller(cs: seq<Node>)
    ensures forall x :: x in Flatten(cs) ==> Size(x) <= SeqSize(cs)
    decreases cs
  {
    if cs != [] {
      FlattenSmaller(cs[0].children);
      FlattenSmaller(cs[1..]);
      SizeUnfold(cs[0]);
    }
  }

  /** Every light-DOM descendant is strictly smaller than its ancestor. */
  lemma LightDescSmaller(n: Node)
    ensures forall x :: x in LightDesc(n) ==> Size(x) < Size(n)
  {
    FlattenSmaller(n.children);
    SizeUnfold(n);
  }

  /** A light-DOM descendant of a light-DOM descendant is a light-DOM descendant. */
  lemma {:induction false} FlattenTransitive(cs: seq<Node>, c: Node, x: Node)
    requires c in Flatten(cs) && x in LightDesc(c)
    ensures x in Flatten(cs)
    decreases cs
  {
    if cs != [] {
      if c == cs[0] {
      } else if c in Flatten(cs[0].children) {
        FlattenTransitive(cs[0].children, c, x);
      } else {
        FlattenTransitive(cs[1..], c, x);
      }
    }
  }
}
