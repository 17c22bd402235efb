/** What holds of every parsed message: nothing is lost, links stay whole, no marker nests in itself. */
module MessageTheorems {
  import opened Options
  import opened Text
  import opened MessageLinks
  import opened MessageFormat
  import opened MessageRules

  // ----- Printing the tree back -----

  /** The tree, printed with its markers, reads `t`; at each fence edge one newline may have been dropped. */
  ghost predicate Prints(nodes: seq<Node>, t: Text)
    decreases nodes
  {
    if nodes == [] then t == []
    else exists k :: 0 <= k <= |t| && NodePrints(nodes[0], t[..k]) && Prints(nodes[1..], t[k..])
  }

  ghost predicate NodePrints(n: Node, t: Text)
    decreases n
  {
    match n
    case TextNode(v) => t == v
    case LinkNode(v, _) => t == v
    case CodeNode(v) => t == [BACKTICK] + v + [BACKTICK]
    case Pre(v) =>
      |t| >= 6 && FenceAt(t, 0) && FenceAt(t, |t| - 3) && FenceContent(t[3..|t| - 3], v)
    case Emphasis(kind, children) =>
      |t| >= 2 && t[0] == MarkOf(kind) && t[|t| - 1] == MarkOf(kind) && Prints(children, t[1..|t| - 1])
  }

  lemma TrimKeepsContent(raw: Text)
    ensures FenceContent(raw, TrimFenceEdges(raw))
  {
    var v := if raw != [] && raw[0] == NEWLINE then raw[1..] else raw;
    assert raw == v || raw == [NEWLINE] + v;
    if v != [] && v[|v| - 1] == NEWLINE {
      assert v == v[..|v| - 1] + [NEWLINE];
      assert [NEWLINE] + (v[..|v| - 1] + [NEWLINE]) == [NEWLINE] + v[..|v| - 1] + [NEWLINE];
    }
  }

  // ----- The parser obeys the rules -----

  /** Where text[lo..hi] is not linked, nothing in it opens a node before `end`. */
  ghost predicate Passed(ctx: Context, lo: nat, hi: nat, end: nat) {
    forall p | lo <= p < hi && LinkAt(ctx, p).None? :: NothingOpens(ctx, p, end)
  }

  lemma TextCovers(ctx: Context, lo: nat, hi: nat, end: nat)
    requires lo < hi <= end <= |ctx.text| && Unlinked(ctx, lo, hi) && Passed(ctx, lo, hi, end)
    ensures Covers(ctx, [TextNode(ctx.text[lo..hi])], lo, hi, end)
  {
    CoversOne(ctx, TextNode(ctx.text[lo..hi]), lo, hi, end);
  }

  /** The stretch before a link, and the link. */
  lemma LinkCovers(ctx: Context, cursor: nat, i: nat, stop: nat, end: nat)
    requires Valid(ctx) && cursor <= i < stop <= end <= |ctx.text| && Aligned(ctx, i) && Aligned(ctx, stop)
    requires LinkAt(ctx, i).Some? && Unlinked(ctx, cursor, i) && Passed(ctx, cursor, i, end)
    ensures var link := LinkAt(ctx, i).value;
            var before := if i > cursor then [TextNode(ctx.text[cursor..i])] else [];
            Covers(ctx, before + [LinkNode(link.part.value, link.part.url)], cursor, link.end, end)
  {
    LinkFits(ctx, i, stop);
    var link := LinkAt(ctx, i).value;
    var node := LinkNode(link.part.value, link.part.url);
    assert IsLink(ctx, i, link.end, link.part.value, link.part.url);
    CoversOne(ctx, node, i, link.end, end);
    if i > cursor {
      TextCovers(ctx, cursor, i, end);
      CoversConcat(ctx, [TextNode(ctx.text[cursor..i])], [node], cursor, i, link.end, end);
    } else {
      assert [] + [node] == [node];
    }
  }

  lemma {:induction false} PlainCovers(ctx: Context, cursor: nat, i: nat, stop: nat, end: nat)
    requires Valid(ctx) && cursor <= i <= stop <= end <= |ctx.text| && Aligned(ctx, i) && Aligned(ctx, stop)
    requires Unlinked(ctx, cursor, i) && Passed(ctx, cursor, stop, end)
    ensures Covers(ctx, PlainFrom(ctx, cursor, i, stop), cursor, stop, end)
    decreases stop - i
  {
    if i == stop {
      if stop > cursor {
        TextCovers(ctx, cursor, stop, end);
      }
    } else if LinkAt(ctx, i).None? {
      NoLinkAligns(ctx, i);
      PlainCovers(ctx, cursor, i + 1, stop, end);
    } else {
      LinkFits(ctx, i, stop);
      LinkCovers(ctx, cursor, i, stop, end);
      var link := LinkAt(ctx, i).value;
      var before := if i > cursor then [TextNode(ctx.text[cursor..i])] else [];
      PlainCovers(ctx, link.end, link.end, stop, end);
      CoversConcat(ctx, before + [LinkNode(link.part.value, link.part.url)], PlainFrom(ctx, link.end, link.end, stop),
                   cursor, link.end, stop, end);
    }
  }

  lemma FenceCovers(ctx: Context, lo: nat, hi: nat, end: nat)
    requires Fenced(ctx, lo, hi) && hi <= end <= |ctx.text|
    ensures Covers(ctx, [Pre(TrimFenceEdges(ctx.text[lo + 3..hi - 3]))], lo, hi, end)
  {
    TrimKeepsContent(ctx.text[lo + 3..hi - 3]);
    CoversOne(ctx, Pre(TrimFenceEdges(ctx.text[lo + 3..hi - 3])), lo, hi, end);
  }

  lemma CodeCovers(ctx: Context, lo: nat, hi: nat, end: nat)
    requires Shortest(ctx, Code, lo, hi) && hi <= end <= |ctx.text|
    ensures Covers(ctx, [CodeNode(ctx.text[lo + 1..hi - 1])], lo, hi, end)
  {
    CoversOne(ctx, CodeNode(ctx.text[lo + 1..hi - 1]), lo, hi, end);
  }

  lemma EmphasisCovers(ctx: Context, kind: Kind, lo: nat, hi: nat, children: seq<Node>, end: nat)
    requires !kind.Code? && Shortest(ctx, kind, lo, hi) && hi <= end <= |ctx.text|
    requires Covers(ctx, children, lo + 1, hi - 1, hi - 1)
    ensures Covers(ctx, [Emphasis(kind, children)], lo, hi, end)
  {
    CoversOne(ctx, Emphasis(kind, children), lo, hi, end);
  }

  /** A closed fence at `i`, with the node that it opens. */
  ghost predicate OpensFence(ctx: Context, i: nat, hi: nat, end: nat, node: Node) {
    i + 2 < hi <= end <= |ctx.text| && Fenced(ctx, i, hi) && node == Pre(TrimFenceEdges(ctx.text[i + 3..hi - 3]))
  }

  /** A marker at `i` that its search closes. */
  ghost predicate OpensMarker(ctx: Context, i: nat, hi: nat, end: nat) {
    && Valid(ctx) && i + 2 < hi <= end <= |ctx.text| && KindOf(ctx.text[i]).Some? && LinkAt(ctx, i).None?
    && EmphasisSearch(ctx, i, end) == Found(hi - 1) && Aligned(ctx, i + 1) && Aligned(ctx, hi - 1)
  }

  /** The node of the marker. */
  function MarkerNode(ctx: Context, i: nat, hi: nat, end: nat): Node
    requires OpensMarker(ctx, i, hi, end)
  {
    var kind := KindOf(ctx.text[i]).value;
    if kind.Code? then CodeNode(ctx.text[i + 1..hi - 1]) else Emphasis(kind, Parse(ctx, i + 1, hi - 1))
  }

  lemma StepOpensFence(ctx: Context, i: nat, end: nat)
    requires Valid(ctx) && i < end && Aligned(ctx, i) && Aligned(ctx, end) && StepAt(ctx, i, end).Fence?
    ensures OpensFence(ctx, i, StepAt(ctx, i, end).After(), end, NodeFor(ctx, i, end, StepAt(ctx, i, end)))
  {
  }

  lemma StepOpensMarker(ctx: Context, i: nat, end: nat)
    requires Valid(ctx) && i < end && Aligned(ctx, i) && Aligned(ctx, end) && StepAt(ctx, i, end).Marker?
    ensures OpensMarker(ctx, i, StepAt(ctx, i, end).After(), end)
  {
  }

  lemma StepIsItsNode(ctx: Context, i: nat, end: nat, step: Step, close: nat)
    requires Valid(ctx) && i < end && Aligned(ctx, i) && Aligned(ctx, end) && step == StepAt(ctx, i, end)
    requires step == Marker(close) && OpensMarker(ctx, i, close + 1, end)
    ensures NodeFor(ctx, i, end, step) == MarkerNode(ctx, i, close + 1, end)
  {
  }

  lemma OpenedCodeCovers(ctx: Context, i: nat, hi: nat, end: nat)
    requires Valid(ctx) && i + 2 < hi <= end <= |ctx.text| && KindOf(ctx.text[i]) == Some(Code)
    requires LinkAt(ctx, i).None? && EmphasisSearch(ctx, i, end) == Found(hi - 1)
    ensures Covers(ctx, [CodeNode(ctx.text[i + 1..hi - 1])], i, hi, end)
  {
    FoundIsShortest(ctx, i, end, hi - 1);
    CodeCovers(ctx, i, hi, end);
  }

  lemma {:induction false} OpenedEmphasisCovers(ctx: Context, i: nat, hi: nat, end: nat, kind: Kind)
    requires Valid(ctx) && i + 2 < hi <= end <= |ctx.text| && KindOf(ctx.text[i]) == Some(kind) && !kind.Code?
    requires LinkAt(ctx, i).None? && EmphasisSearch(ctx, i, end) == Found(hi - 1)
    requires Aligned(ctx, i + 1) && Aligned(ctx, hi - 1)
    ensures Covers(ctx, [Emphasis(kind, Parse(ctx, i + 1, hi - 1))], i, hi, end)
    decreases end - i, 0
  {
    FoundIsShortest(ctx, i, end, hi - 1);
    ParseCovers(ctx, i + 1, i + 1, hi - 1);
    EmphasisCovers(ctx, kind, i, hi, Parse(ctx, i + 1, hi - 1), end);
  }

  lemma {:induction false} OpenedMarkerCovers(ctx: Context, i: nat, hi: nat, end: nat)
    requires OpensMarker(ctx, i, hi, end)
    ensures Covers(ctx, [MarkerNode(ctx, i, hi, end)], i, hi, end)
    decreases end - i, 1
  {
    var kind := KindOf(ctx.text[i]).value;
    if kind.Code? {
      OpenedCodeCovers(ctx, i, hi, end);
    } else {
      OpenedEmphasisCovers(ctx, i, hi, end, kind);
    }
  }

  lemma OpenedFenceCovers(ctx: Context, i: nat, hi: nat, end: nat, node: Node)
    requires Valid(ctx) && OpensFence(ctx, i, hi, end, node)
    ensures Covers(ctx, [node], i, hi, end)
  {
    FenceCovers(ctx, i, hi, end);
  }

  lemma {:induction false} OpenedCovers(ctx: Context, i: nat, end: nat)
    requires Valid(ctx) && i < end && Aligned(ctx, i) && Aligned(ctx, end) && !StepAt(ctx, i, end).Skip?
    ensures Covers(ctx, [NodeFor(ctx, i, end, StepAt(ctx, i, end))], i, StepAt(ctx, i, end).After(), end)
    decreases end - i, 2
  {
    var step := StepAt(ctx, i, end);
    if step.Fence? {
      StepOpensFence(ctx, i, end);
      OpenedFenceCovers(ctx, i, step.After(), end, NodeFor(ctx, i, end, step));
    } else {
      StepOpensMarker(ctx, i, end);
      StepIsItsNode(ctx, i, end, step, step.close);
      OpenedMarkerCovers(ctx, i, step.After(), end);
    }
  }

  /** What one step skips, it may. */
  lemma SkipPasses(ctx: Context, plain: nat, i: nat, end: nat)
    requires Valid(ctx) && plain <= i < end && Aligned(ctx, i) && Aligned(ctx, end) && StepAt(ctx, i, end).Skip?
    requires Passed(ctx, plain, i, end)
    ensures Passed(ctx, plain, StepAt(ctx, i, end).After(), end)
  {
    if LinkAt(ctx, i).Some? {
      LinkFits(ctx, i, end);
      forall p | i <= p < LinkAt(ctx, i).value.end ensures LinkAt(ctx, p).Some? {
        assert ctx.links[ctx.linkIndex[i]].Holds(p);
      }
    } else {
      SkippedOpensNothing(ctx, i, end);
    }
  }

  /** Parsing loses nothing, and obeys the rules: the tree covers the whole range. */
  lemma {:induction false} ParseCovers(ctx: Context, plain: nat, i: nat, end: nat)
    requires Valid(ctx) && plain <= i <= end && Aligned(ctx, plain) && Aligned(ctx, i) && Aligned(ctx, end)
    requires Passed(ctx, plain, i, end)
    ensures Covers(ctx, ParseFrom(ctx, plain, i, end), plain, end, end)
    decreases end - i, 3
  {
    if i == end {
      PlainCovers(ctx, plain, plain, end, end);
    } else {
      var step := StepAt(ctx, i, end);
      if step.Skip? {
        SkipPasses(ctx, plain, i, end);
        ParseCovers(ctx, plain, step.After(), end);
      } else {
        PlainCovers(ctx, plain, plain, i, end);
        OpenedCovers(ctx, i, end);
        ParseCovers(ctx, step.After(), step.After(), end);
        NodeBetween(ctx, plain, i, end);
      }
    }
  }

  lemma NodeBetween(ctx: Context, plain: nat, i: nat, end: nat)
    requires Valid(ctx) && plain <= i < end && Aligned(ctx, plain) && Aligned(ctx, i) && Aligned(ctx, end)
    requires !StepAt(ctx, i, end).Skip?
    requires Covers(ctx, PlainFrom(ctx, plain, plain, i), plain, i, end)
    requires Covers(ctx, [NodeFor(ctx, i, end, StepAt(ctx, i, end))], i, StepAt(ctx, i, end).After(), end)
    requires Covers(ctx, ParseFrom(ctx, StepAt(ctx, i, end).After(), StepAt(ctx, i, end).After(), end),
                    StepAt(ctx, i, end).After(), end, end)
    ensures Covers(ctx, ParseFrom(ctx, plain, i, end), plain, end, end)
  {
    var step := StepAt(ctx, i, end);
    var node, rest := NodeFor(ctx, i, end, step), ParseFrom(ctx, step.After(), step.After(), end);
    CoversConcat(ctx, PlainFrom(ctx, plain, plain, i), [node], plain, i, step.After(), end);
    CoversConcat(ctx, PlainFrom(ctx, plain, plain, i) + [node], rest, plain, step.After(), end, end);
  }

  lemma SliceParts(text: Text, lo: nat, mid: nat, hi: nat)
    requires lo <= mid <= hi <= |text|
    ensures text[lo..hi][..mid - lo] == text[lo..mid] && text[lo..hi][mid - lo..] == text[mid..hi]
  {
  }

  lemma {:induction false} CoversPrints(ctx: Context, nodes: seq<Node>, lo: nat, hi: nat, end: nat)
    requires Valid(ctx) && Covers(ctx, nodes, lo, hi, end)
    ensures Prints(nodes, ctx.text[lo..hi])
    decreases nodes
  {
    if nodes != [] {
      var mid := FirstEnds(ctx, nodes, lo, hi, end);
      NodeCoversPrints(ctx, nodes[0], lo, mid, end);
      CoversPrints(ctx, nodes[1..], mid, hi, end);
      SliceParts(ctx.text, lo, mid, hi);
    }
  }

  lemma FenceSlice(text: Text, lo: nat, hi: nat)
    requires lo + 6 < hi && FenceAt(text, lo) && FenceAt(text, hi - 3)
    ensures FenceAt(text[lo..hi], 0) && FenceAt(text[lo..hi], hi - lo - 3)
    ensures text[lo..hi][3..hi - lo - 3] == text[lo + 3..hi - 3]
  {
    var inner, outer := text[lo..hi][3..hi - lo - 3], text[lo + 3..hi - 3];
    assert |inner| == |outer| && forall i | 0 <= i < |inner| :: inner[i] == outer[i];
  }

  lemma FencePrints(text: Text, lo: nat, hi: nat, v: Text)
    requires lo + 6 < hi && FenceAt(text, lo) && FenceAt(text, hi - 3) && FenceContent(text[lo + 3..hi - 3], v)
    ensures NodePrints(Pre(v), text[lo..hi])
  {
    FenceSlice(text, lo, hi);
  }

  lemma BetweenMarkers(text: Text, lo: nat, hi: nat)
    requires lo + 2 <= hi <= |text|
    ensures text[lo..hi] == [text[lo]] + text[lo + 1..hi - 1] + [text[hi - 1]]
    ensures text[lo..hi][1..hi - lo - 1] == text[lo + 1..hi - 1]
  {
  }

  lemma {:induction false} NodeCoversPrints(ctx: Context, n: Node, lo: nat, hi: nat, end: nat)
    requires Valid(ctx) && NodeCovers(ctx, n, lo, hi, end)
    ensures NodePrints(n, ctx.text[lo..hi])
    decreases n
  {
    match n
    case TextNode(_) =>
    case LinkNode(v, url) =>
      assert IsLink(ctx, lo, hi, v, url);
    case CodeNode(v) =>
      BetweenMarkers(ctx.text, lo, hi);
    case Pre(v) =>
      FencePrints(ctx.text, lo, hi, v);
    case Emphasis(_, children) =>
      CoversPrints(ctx, children, lo + 1, hi - 1, hi - 1);
      BetweenMarkers(ctx.text, lo, hi);
  }

  // ----- Links stay whole -----

  /** The link lies whole in one link, code or fence node of the tree over text[lo..hi]. */
  ghost predicate Keeps(ctx: Context, nodes: seq<Node>, lo: nat, hi: nat, end: nat, link: Span)
    decreases nodes
  {
    nodes != [] &&
    exists mid :: lo <= mid <= hi && NodeCovers(ctx, nodes[0], lo, mid, end) && Covers(ctx, nodes[1..], mid, hi, end) &&
                  if link.end <= mid then NodeKeeps(ctx, nodes[0], lo, mid, link)
                  else mid <= link.Start() && Keeps(ctx, nodes[1..], mid, hi, end, link)
  }

  ghost predicate NodeKeeps(ctx: Context, n: Node, lo: nat, hi: nat, link: Span)
    decreases n
  {
    && lo <= link.Start() && link.end <= hi
    && match n
       case TextNode(_) => false
       case LinkNode(v, url) => link == Span(hi, Link(v, url)) && link.Start() == lo
       case CodeNode(_) => lo + 1 <= link.Start() && link.end <= hi - 1
       case Pre(_) => lo + 3 <= link.Start() && link.end <= hi - 3
       case Emphasis(_, children) =>
         lo + 1 <= link.Start() && link.end <= hi - 1 && Keeps(ctx, children, lo + 1, hi - 1, hi - 1, link)
  }

  lemma {:induction false} CoversKeeps(ctx: Context, nodes: seq<Node>, lo: nat, hi: nat, end: nat, k: nat)
    requires Valid(ctx) && Covers(ctx, nodes, lo, hi, end)
    requires k < |ctx.links| && lo <= ctx.links[k].Start() && ctx.links[k].end <= hi
    ensures Keeps(ctx, nodes, lo, hi, end, ctx.links[k])
    decreases nodes
  {
    var link := ctx.links[k];
    assert link.Holds(link.Start());
    var mid :| lo <= mid <= hi && NodeCovers(ctx, nodes[0], lo, mid, end) && Covers(ctx, nodes[1..], mid, hi, end);
    NodeCutsNoLink(ctx, nodes[0], lo, mid, end, k);
    if link.end <= mid {
      NodeCoversKeeps(ctx, nodes[0], lo, mid, end, k);
    } else {
      CoversKeeps(ctx, nodes[1..], mid, hi, end, k);
    }
  }

  lemma NodeCutsNoLink(ctx: Context, n: Node, lo: nat, hi: nat, end: nat, k: nat)
    requires Valid(ctx) && NodeCovers(ctx, n, lo, hi, end) && k < |ctx.links| && lo <= ctx.links[k].Start()
    ensures ctx.links[k].end <= hi || hi <= ctx.links[k].Start()
  {
    if n.LinkNode? {
      var j :| 0 <= j < |ctx.links| && ctx.links[j] == Span(hi, Link(n.value, n.url)) && ctx.links[j].Start() == lo;
      if ctx.links[k].Holds(hi - 1) {
        LinksAreDisjoint(ctx, j, k, hi - 1);
      }
    } else {
      if n.Pre? {
        FenceAligns(ctx, hi - 3);
      }
      assert LinkAt(ctx, hi - 1).None?;
      LinkAvoids(ctx, k, hi - 1);
    }
  }

  lemma OneLinkKeeps(ctx: Context, v: Text, url: Url, lo: nat, hi: nat, k: nat)
    requires Valid(ctx) && lo < hi <= |ctx.text| && IsLink(ctx, lo, hi, v, url)
    requires k < |ctx.links| && lo <= ctx.links[k].Start() && ctx.links[k].end <= hi
    ensures NodeKeeps(ctx, LinkNode(v, url), lo, hi, ctx.links[k])
  {
    var j :| 0 <= j < |ctx.links| && ctx.links[j] == Span(hi, Link(v, url)) && ctx.links[j].Start() == lo;
    LinksAreDisjoint(ctx, j, k, ctx.links[k].Start());
  }

  lemma LinkInsideMarkers(ctx: Context, kind: Kind, lo: nat, hi: nat, k: nat)
    requires Valid(ctx) && Hugged(ctx, kind, lo, hi)
    requires k < |ctx.links| && lo <= ctx.links[k].Start() && ctx.links[k].end <= hi
    ensures lo + 1 <= ctx.links[k].Start() && ctx.links[k].end <= hi - 1
  {
    LinkAvoids(ctx, k, lo);
    LinkAvoids(ctx, k, hi - 1);
  }

  lemma LinkInsideFences(ctx: Context, lo: nat, hi: nat, k: nat)
    requires Valid(ctx) && lo + 6 < hi && FenceAt(ctx.text, lo) && FenceAt(ctx.text, hi - 3)
    requires k < |ctx.links| && lo <= ctx.links[k].Start() && ctx.links[k].end <= hi
    ensures lo + 3 <= ctx.links[k].Start() && ctx.links[k].end <= hi - 3
  {
    FenceAligns(ctx, lo);
    FenceAligns(ctx, hi - 3);
    forall p | lo <= p < lo + 3 || hi - 3 <= p < hi ensures !ctx.links[k].Holds(p) {
      LinkAvoids(ctx, k, p);
    }
  }

  lemma {:induction false} NodeCoversKeeps(ctx: Context, n: Node, lo: nat, hi: nat, end: nat, k: nat)
    requires Valid(ctx) && NodeCovers(ctx, n, lo, hi, end)
    requires k < |ctx.links| && lo <= ctx.links[k].Start() && ctx.links[k].end <= hi
    ensures NodeKeeps(ctx, n, lo, hi, ctx.links[k])
    decreases n
  {
    var link := ctx.links[k];
    match n
    case TextNode(_) =>
      LinkAvoids(ctx, k, link.Start());
    case LinkNode(v, url) =>
      OneLinkKeeps(ctx, v, url, lo, hi, k);
    case CodeNode(_) =>
      LinkInsideMarkers(ctx, Code, lo, hi, k);
    case Pre(_) =>
      LinkInsideFences(ctx, lo, hi, k);
    case Emphasis(kind, children) =>
      LinkInsideMarkers(ctx, kind, lo, hi, k);
      CoversKeeps(ctx, children, lo + 1, hi - 1, hi - 1, k);
  }

  // ----- Nesting -----

  ghost predicate NoSelfNest(nodes: seq<Node>, active: set<Kind>)
    decreases nodes
  {
    forall i | 0 <= i < |nodes| && nodes[i].Emphasis? ::
      nodes[i].kind in EMPHASES - active && NoSelfNest(nodes[i].children, active + {nodes[i].kind})
  }

  function Depth(nodes: seq<Node>): nat
    decreases nodes
  {
    if nodes == [] then 0
    else
      var first := if nodes[0].Emphasis? then 1 + Depth(nodes[0].children) else 0;
      Max(first, Depth(nodes[1..]))
  }

  lemma NoSelfNestConcat(a: seq<Node>, b: seq<Node>, active: set<Kind>)
    requires NoSelfNest(a, active) && NoSelfNest(b, active)
    ensures NoSelfNest(a + b, active)
  {
  }

  lemma PlainIsFlat(ctx: Context, cursor: nat, i: nat, end: nat, active: set<Kind>)
    requires Valid(ctx) && cursor <= i <= end && Aligned(ctx, end)
    ensures NoSelfNest(PlainFrom(ctx, cursor, i, end), active)
    decreases end - i
  {
    if i < end {
      if LinkAt(ctx, i).None? {
        PlainIsFlat(ctx, cursor, i + 1, end, active);
      } else {
        LinkFits(ctx, i, end);
        PlainIsFlat(ctx, LinkAt(ctx, i).value.end, LinkAt(ctx, i).value.end, end, active);
      }
    }
  }

  /** No marker is inside itself at any depth: the range holds no closer for an active marker. */
  lemma {:induction false} ParseNestsNoMarkerInItself(ctx: Context, plain: nat, i: nat, end: nat, start: nat,
                                                      active: set<Kind>)
    requires Valid(ctx) && start <= plain <= i <= end && Aligned(ctx, i) && Aligned(ctx, end)
    requires active <= EMPHASES && Barren(ctx, active, start, end)
    ensures NoSelfNest(ParseFrom(ctx, plain, i, end), active)
    decreases end - i, 1
  {
    if i == end {
      PlainIsFlat(ctx, plain, plain, end, active);
    } else {
      var step := StepAt(ctx, i, end);
      ParseNestsNoMarkerInItself(ctx, if step.Skip? then plain else step.After(), step.After(), end, start, active);
      if !step.Skip? {
        PlainIsFlat(ctx, plain, plain, i, active);
        var node := NodeFor(ctx, i, end, step);
        NodeNestsNoMarkerInItself(ctx, i, end, start, active);
        NoSelfNestConcat(PlainFrom(ctx, plain, plain, i), [node], active);
        NoSelfNestConcat(PlainFrom(ctx, plain, plain, i) + [node], ParseFrom(ctx, step.After(), step.After(), end), active);
      }
    }
  }

  lemma {:induction false} NodeNestsNoMarkerInItself(ctx: Context, i: nat, end: nat, start: nat, active: set<Kind>)
    requires Valid(ctx) && start <= i < end && Aligned(ctx, i) && Aligned(ctx, end) && !StepAt(ctx, i, end).Skip?
    requires active <= EMPHASES && Barren(ctx, active, start, end)
    ensures NoSelfNest([NodeFor(ctx, i, end, StepAt(ctx, i, end))], active)
    decreases end - i, 0
  {
    var step := StepAt(ctx, i, end);
    var node := NodeFor(ctx, i, end, step);
    if node.Emphasis? {
      OpenerIsNew(ctx, active, start, end, i);
      ParseNestsNoMarkerInItself(ctx, i + 1, i + 1, step.close, i + 1, active + {node.kind});
    }
  }

  lemma {:induction false} DepthIsBounded(nodes: seq<Node>, active: set<Kind>)
    requires active <= EMPHASES && NoSelfNest(nodes, active)
    ensures Depth(nodes) <= 3 - |active|
    decreases nodes
  {
    SubsetCardinality(active, EMPHASES);
    if nodes != [] {
      assert NoSelfNest(nodes[1..], active);
      DepthIsBounded(nodes[1..], active);
      if nodes[0].Emphasis? {
        ActiveMarkersAreFew(active, nodes[0].kind);
        DepthIsBounded(nodes[0].children, active + {nodes[0].kind});
      }
    }
  }

  // ----- The whole message -----

  /** The first `count` positions carry the links so far. */
  ghost predicate Indexed(text: Text, links: seq<Span>, index: seq<int>, count: nat) {
    && |index| == |text| && count <= |text|
    && (forall k | 0 <= k < |links| :: GoodSpan(text, links[k]) && links[k].end <= count)
    && (forall i | 0 <= i < |text| :: -1 <= index[i] < |links|)
    && (forall i, k | 0 <= i < |text| && 0 <= k < |links| :: index[i] == k <==> links[k].Holds(i))
  }

  /** The spans are the located links, one by one. */
  ghost predicate SameLinks(links: seq<Span>, located: seq<(nat, Part)>) {
    && |links| == |located|
    && forall k | 0 <= k < |links| :: links[k] == Span(located[k].0 + |located[k].1.value|, located[k].1)
  }

  lemma ConcatAt(parts: seq<Part>, n: nat)
    requires n < |parts|
    ensures Concat(parts[..n + 1]) == Concat(parts[..n]) + parts[n].value
    ensures Concat(parts[..n + 1]) <= Concat(parts)
    ensures Located(parts[..n + 1]) ==
            Located(parts[..n]) + if parts[n].Link? then [(|Concat(parts[..n])|, parts[n])] else []
    decreases |parts|
  {
    assert parts[..n + 1] == parts[..n] + [parts[n]];
    ConcatSnoc(parts[..n], parts[n]);
    if n + 1 < |parts| {
      var init := parts[..|parts| - 1];
      ConcatAt(init, n);
      assert init[..n + 1] == parts[..n + 1];
    } else {
      assert parts[..n + 1] == parts;
    }
  }

  /** Fills the positions of one link. */
  method Fill(index: array<int>, value: int, from: nat, to: nat)
    requires from <= to <= index.Length
    modifies index
    ensures forall i | 0 <= i < index.Length :: index[i] == if from <= i < to then value else old(index[i])
  {
    for i := from to to
      invariant forall j | 0 <= j < index.Length :: index[j] == if from <= j < i then value else old(index[j])
    {
      index[i] := value;
    }
  }

  lemma IndexedExtends(text: Text, links: seq<Span>, index: seq<int>, offset: nat, part: Part, next: seq<int>)
    requires Indexed(text, links, index, offset) && part.Link? && part.value != [] && BACKTICK !in part.value
    requires offset + |part.value| <= |text| && text[offset..offset + |part.value|] == part.value
    requires |next| == |text|
    requires forall i | 0 <= i < |text| ::
               next[i] == if offset <= i < offset + |part.value| then |links| else index[i]
    ensures Indexed(text, links + [Span(offset + |part.value|, part)], next, offset + |part.value|)
  {
    var span := Span(offset + |part.value|, part);
    var more := links + [span];
    forall i, k | 0 <= i < |text| && 0 <= k < |more| ensures next[i] == k <==> more[k].Holds(i) {
      if k < |links| {
        assert more[k] == links[k];
      }
    }
  }

  /** Enters the part that starts at `offset`, if it is a link. */
  method AddPart(text: Text, links: seq<Span>, index: array<int>, offset: nat, part: Part) returns (more: seq<Span>)
    requires Indexed(text, links, index[..], offset) && part.value != [] && (part.Link? ==> BACKTICK !in part.value)
    requires offset + |part.value| <= |text| && text[offset..offset + |part.value|] == part.value
    modifies index
    ensures more == links + if part.Link? then [Span(offset + |part.value|, part)] else []
    ensures Indexed(text, more, index[..], offset + |part.value|)
  {
    if !part.Link? {
      return links;
    }
    ghost var before := index[..];
    Fill(index, |links|, offset, offset + |part.value|);
    IndexedExtends(text, links, before, offset, part, index[..]);
    more := links + [Span(offset + |part.value|, part)];
  }

  lemma PartAt(text: Text, done: seq<Part>, parts: seq<Part>, n: nat)
    requires Concat(parts) == text && n < |parts| && done == parts[..n]
    ensures done + [parts[n]] == parts[..n + 1]
    ensures |Concat(done + [parts[n]])| == |Concat(done)| + |parts[n].value| <= |text|
    ensures text[|Concat(done)|..|Concat(done + [parts[n]])|] == parts[n].value
    ensures Located(done + [parts[n]]) == Located(done) + if parts[n].Link? then [(|Concat(done)|, parts[n])] else []
  {
    assert done + [parts[n]] == parts[..n + 1];
    ConcatAt(parts, n);
  }

  lemma IndexedIsValid(text: Text, links: seq<Span>, index: seq<int>, classes: Classes)
    requires Indexed(text, links, index, |text|) && Lawful(classes)
    ensures Valid(Context(text, links, index, classes))
  {
  }

  method IndexParts(text: Text, parts: seq<Part>, safe: UrlCheck, classes: Classes) returns (ctx: Context)
    requires Concat(parts) == text && AllSound(parts, safe) && Lawful(classes)
    ensures Valid(ctx) && ctx.text == text && ctx.classes == classes && SameLinks(ctx.links, Located(parts))
  {
    var links: seq<Span> := [];
    var index := new int[|text|](_ => -1);
    var offset: nat := 0;
    ghost var done: seq<Part> := [];
    for n := 0 to |parts|
      invariant done == parts[..n]
      invariant offset == |Concat(done)| && offset <= |text|
      invariant SameLinks(links, Located(done))
      invariant Indexed(text, links, index[..], offset)
    {
      assert Sound(parts[n], safe);
      PartAt(text, done, parts, n);
      links := AddPart(text, links, index, offset, parts[n]);
      offset := offset + |parts[n].value|;
      done := done + [parts[n]];
    }
    assert done == parts;
    IndexedIsValid(text, links, index[..], classes);
    ctx := Context(text, links, index[..], classes);
  }

  /** Every link of the text with its positions. */
  method IndexLinks(text: Text, matches: seq<Match>, safe: UrlCheck, classes: Classes) returns (ctx: Context)
    requires ValidMatches(text, matches) && Lawful(classes)
    ensures Valid(ctx) && ctx.text == text && ctx.classes == classes
            && SameLinks(ctx.links, LinksOf(text, matches, safe))
  {
    var parts := SplitMessageLinks(text, matches, safe);
    ctx := IndexParts(text, parts, safe, classes);
  }

  /** What holds of the tree of a whole text. */
  ghost predicate IsTheTree(ctx: Context, nodes: seq<Node>) {
    && Covers(ctx, nodes, 0, |ctx.text|, |ctx.text|) && Prints(nodes, ctx.text)
    && (forall k | 0 <= k < |ctx.links| :: Keeps(ctx, nodes, 0, |ctx.text|, |ctx.text|, ctx.links[k]))
    && NoSelfNest(nodes, {}) && Depth(nodes) <= 3
  }

  lemma ParseIsTheTree(ctx: Context)
    requires Valid(ctx)
    ensures IsTheTree(ctx, Parse(ctx, 0, |ctx.text|))
  {
    var nodes, n := Parse(ctx, 0, |ctx.text|), |ctx.text|;
    ParseCovers(ctx, 0, 0, n);
    CoversPrints(ctx, nodes, 0, n, n);
    assert ctx.text[0..n] == ctx.text;
    forall k | 0 <= k < |ctx.links| ensures Keeps(ctx, nodes, 0, n, n, ctx.links[k]) {
      CoversKeeps(ctx, nodes, 0, n, n, k);
    }
    ParseNestsNoMarkerInItself(ctx, 0, 0, n, 0, {});
    DepthIsBounded(nodes, {});
  }

  /** The parsed tree is the only one that obeys the rules. */
  lemma ParseIsTheOnlyTree(ctx: Context, other: seq<Node>)
    requires Valid(ctx) && Covers(ctx, other, 0, |ctx.text|, |ctx.text|)
    ensures other == Parse(ctx, 0, |ctx.text|)
  {
    ParseCovers(ctx, 0, 0, |ctx.text|);
    OnlyOneTree(ctx, other, Parse(ctx, 0, |ctx.text|), 0, |ctx.text|, |ctx.text|);
  }

  /**
   * The tree of a message: the only one that obeys the rules, printing back to the text, each link whole in one
   * node, no marker inside itself, and the searches for closers look at most 20 times at each character of the
   * text on average, 16 for emphasis and four for fences.
   */
  method ParseMessageText(text: Text, matches: seq<Match>, safe: UrlCheck, classes: Classes)
      returns (nodes: seq<Node>, looks: nat, ghost ctx: Context)
    requires ValidMatches(text, matches) && Lawful(classes)
    ensures Valid(ctx) && ctx.text == text && ctx.classes == classes
    ensures SameLinks(ctx.links, LinksOf(text, matches, safe))
    ensures nodes == Parse(ctx, 0, |text|) && IsTheTree(ctx, nodes)
    ensures forall other | Covers(ctx, other, 0, |text|, |text|) :: other == nodes
    ensures looks <= 20 * |text|
  {
    var context := IndexLinks(text, matches, safe, classes);
    ctx := context;
    nodes, looks := ParseRange(context, 0, |text|, {});
    var _, _, _, _ := FenceWorkIsLinear(text, 0);
    ParseIsTheTree(ctx);
    forall other | Covers(ctx, other, 0, |text|, |text|) ensures other == nodes {
      ParseIsTheOnlyTree(ctx, other);
    }
  }
}
