/**
 * The rules that a parsed message obeys, said over the positions of its text, and that no two trees obey them:
 * each node stands where the text asks for it, and nothing that could be a node is left as text.
 */
module MessageRules {
  import opened Options
  import opened Text
  import opened MessageLinks
  import opened MessageFormat

  // ----- Word edges -----

  /** A code point that ends right before `p`: two units when the last is a low surrogate. */
  ghost predicate EndsAt(text: Text, p: nat, cp: Text) {
    && 1 <= |cp| <= 2 && |cp| <= p <= |text| && text[p - |cp|..p] == cp
    && (|cp| == 2 <==> p >= 2 && IsLowSurrogate(text[p - 1]))
  }

  /** A code point that starts at `p`: two units when they are a pair of surrogates. */
  ghost predicate StartsAt(text: Text, p: nat, cp: Text) {
    && 1 <= |cp| <= 2 && p + |cp| <= |text| && text[p..p + |cp|] == cp
    && (|cp| == 2 <==> p + 2 <= |text| && IsHighSurrogate(text[p]) && IsLowSurrogate(text[p + 1]))
  }

  ghost predicate WordBefore(ctx: Context, p: nat) { exists cp :: EndsAt(ctx.text, p, cp) && ctx.classes.word(cp) }

  ghost predicate WordAfter(ctx: Context, p: nat) { exists cp :: StartsAt(ctx.text, p, cp) && ctx.classes.word(cp) }

  lemma OneEnds(text: Text, p: nat, a: Text, b: Text)
    requires EndsAt(text, p, a) && EndsAt(text, p, b)
    ensures a == b
  {
  }

  lemma OneStarts(text: Text, p: nat, a: Text, b: Text)
    requires StartsAt(text, p, a) && StartsAt(text, p, b)
    ensures a == b
  {
  }

  lemma BeforeIsCharBefore(ctx: Context, p: nat)
    requires p <= |ctx.text|
    ensures WordBefore(ctx, p) <==> IsWordChar(ctx.classes, CharBefore(ctx.text, p))
  {
    var before := CharBefore(ctx.text, p);
    if p > 0 {
      assert EndsAt(ctx.text, p, before);
      if cp :| EndsAt(ctx.text, p, cp) && ctx.classes.word(cp) {
        OneEnds(ctx.text, p, cp, before);
      }
    }
  }

  lemma AfterIsCharAfter(ctx: Context, k: nat)
    requires k < |ctx.text|
    ensures WordAfter(ctx, k + 1) <==> IsWordChar(ctx.classes, CharAfter(ctx.text, k))
  {
    var after := CharAfter(ctx.text, k);
    if k + 1 < |ctx.text| {
      assert StartsAt(ctx.text, k + 1, after);
      if cp :| StartsAt(ctx.text, k + 1, cp) && ctx.classes.word(cp) {
        OneStarts(ctx.text, k + 1, cp, after);
      }
    }
  }

  // ----- Where a node may stand -----

  /** One line between two unlinked markers that hug it and stand at word edges. */
  ghost predicate Hugged(ctx: Context, kind: Kind, lo: nat, hi: nat) {
    && lo + 3 <= hi <= |ctx.text|
    && ctx.text[lo] == MarkOf(kind) && ctx.text[hi - 1] == MarkOf(kind)
    && LinkAt(ctx, lo).None? && LinkAt(ctx, hi - 1).None?
    && OneLine(ctx, lo, hi)
    && !WordBefore(ctx, lo) && !WordAfter(ctx, hi)
    && ctx.text[lo + 1] != MarkOf(kind)
    && !ctx.classes.space(ctx.text[lo + 1]) && !ctx.classes.space(ctx.text[hi - 2])
  }

  /** The nearest marker closes. */
  ghost predicate Shortest(ctx: Context, kind: Kind, lo: nat, hi: nat) {
    Hugged(ctx, kind, lo, hi) && forall k | lo + 3 <= k < hi :: !Hugged(ctx, kind, lo, k)
  }

  /** From one fence to the next one that leaves something between. */
  ghost predicate Fenced(ctx: Context, lo: nat, hi: nat) {
    && lo + 7 <= hi <= |ctx.text| && FenceAt(ctx.text, lo) && FenceAt(ctx.text, hi - 3)
    && forall k | lo + 4 <= k < hi - 3 :: !FenceAt(ctx.text, k)
  }

  /** No marker and no fence at `p` finds anything to close it before `end`. */
  ghost predicate NothingOpens(ctx: Context, p: nat, end: nat) {
    && (forall kind, hi | p + 3 <= hi <= end :: !Hugged(ctx, kind, p, hi))
    && (forall k | p + 4 <= k && k + 3 <= end :: !(FenceAt(ctx.text, p) && FenceAt(ctx.text, k)))
  }

  lemma MarkersByCode()
    ensures MarkOf(Bold) == 42 && MarkOf(Italic) == 95 && MarkOf(Strike) == 126 && MarkOf(Code) == 96
    ensures forall u: Unit, kind: Kind :: KindOf(u) == Some(kind) <==> u == MarkOf(kind)
  {
  }

  lemma CloserHugs(ctx: Context, start: nat, end: nat, k: nat)
    requires Valid(ctx) && start + 2 <= k < end <= |ctx.text| && KindOf(ctx.text[start]).Some?
    requires LinkAt(ctx, start).None? && CanOpen(ctx, start, end) && OneLine(ctx, start + 2, k + 1)
    ensures Hugged(ctx, KindOf(ctx.text[start]).value, start, k + 1) <==> CanClose(ctx, ctx.text[start], k)
  {
    BeforeIsCharBefore(ctx, start);
    AfterIsCharAfter(ctx, k);
    assert ctx.text[start + 1] != NEWLINE;
  }

  lemma HuggedOpens(ctx: Context, start: nat, hi: nat, end: nat)
    requires start + 3 <= hi <= end <= |ctx.text| && KindOf(ctx.text[start]).Some?
    requires Hugged(ctx, KindOf(ctx.text[start]).value, start, hi)
    ensures CanOpen(ctx, start, end)
  {
    BeforeIsCharBefore(ctx, start);
  }

  lemma FoundIsShortest(ctx: Context, start: nat, end: nat, close: nat)
    requires Valid(ctx) && start < end <= |ctx.text| && KindOf(ctx.text[start]).Some? && LinkAt(ctx, start).None?
    requires EmphasisSearch(ctx, start, end) == Found(close)
    ensures Shortest(ctx, KindOf(ctx.text[start]).value, start, close + 1)
  {
    assert Scan(ctx, ctx.text[start], start + 2, end) == Found(close);
    CloserHugs(ctx, start, end, close);
    forall hi | start + 3 <= hi < close + 1 ensures !Hugged(ctx, KindOf(ctx.text[start]).value, start, hi) {
      CloserHugs(ctx, start, end, hi - 1);
    }
  }

  lemma NotFoundIsNone(ctx: Context, start: nat, end: nat, hi: nat)
    requires Valid(ctx) && start + 3 <= hi <= end <= |ctx.text| && KindOf(ctx.text[start]).Some?
    requires LinkAt(ctx, start).None? && !EmphasisSearch(ctx, start, end).Found?
    ensures !Hugged(ctx, KindOf(ctx.text[start]).value, start, hi)
  {
    if Hugged(ctx, KindOf(ctx.text[start]).value, start, hi) {
      HuggedOpens(ctx, start, hi, end);
      var stop := Scan(ctx, ctx.text[start], start + 2, end).to;
      if stop >= hi {
        CloserHugs(ctx, start, end, hi - 1);
      }
    }
  }

  /** The search for a closer finds the shortest node, or there is none. */
  lemma SearchIsExact(ctx: Context, start: nat, end: nat)
    requires Valid(ctx) && start < end <= |ctx.text| && KindOf(ctx.text[start]).Some? && LinkAt(ctx, start).None?
    ensures var r, kind := EmphasisSearch(ctx, start, end), KindOf(ctx.text[start]).value;
            if r.Found? then Shortest(ctx, kind, start, r.at + 1)
            else forall hi | start + 3 <= hi <= end :: !Hugged(ctx, kind, start, hi)
  {
    if EmphasisSearch(ctx, start, end).Found? {
      FoundIsShortest(ctx, start, end, EmphasisSearch(ctx, start, end).at);
    } else {
      forall hi | start + 3 <= hi <= end ensures !Hugged(ctx, KindOf(ctx.text[start]).value, start, hi) {
        NotFoundIsNone(ctx, start, end, hi);
      }
    }
  }

  /** What the parser passes over opens nothing. */
  lemma SkippedOpensNothing(ctx: Context, i: nat, end: nat)
    requires Valid(ctx) && i < end && Aligned(ctx, i) && Aligned(ctx, end)
    requires LinkAt(ctx, i).None? && StepAt(ctx, i, end).Skip?
    ensures NothingOpens(ctx, i, end)
  {
    NoFenceOpens(ctx, i, end);
    forall kind, hi | i + 3 <= hi <= end ensures !Hugged(ctx, kind, i, hi) {
      NoMarkerOpens(ctx, i, end, kind, hi);
    }
  }

  lemma NoFenceOpens(ctx: Context, i: nat, end: nat)
    requires i < end <= |ctx.text| && !FenceEnd(ctx, i, end).Found?
    ensures forall k | i + 4 <= k && k + 3 <= end :: !(FenceAt(ctx.text, i) && FenceAt(ctx.text, k))
  {
  }

  lemma NoMarkerOpens(ctx: Context, i: nat, end: nat, kind: Kind, hi: nat)
    requires Valid(ctx) && i < end <= |ctx.text| && i + 3 <= hi <= end && LinkAt(ctx, i).None?
    requires KindOf(ctx.text[i]).Some? ==> !EmphasisSearch(ctx, i, end).Found?
    ensures !Hugged(ctx, kind, i, hi)
  {
    if KindOf(ctx.text[i]).Some? {
      SearchIsExact(ctx, i, end);
    }
  }

  // ----- The tree over its positions -----

  ghost predicate Unlinked(ctx: Context, lo: nat, hi: nat) {
    forall k | lo <= k < hi :: LinkAt(ctx, k).None?
  }

  ghost predicate IsLink(ctx: Context, lo: nat, hi: nat, v: Text, url: Url) {
    exists k :: 0 <= k < |ctx.links| && ctx.links[k] == Span(hi, Link(v, url)) && ctx.links[k].Start() == lo
  }

  /** `v` is `raw` without the newline that it starts with, and then without the one that it ends with. */
  ghost predicate FenceContent(raw: Text, v: Text) {
    var noLead, noTrail := raw == [] || raw[0] != NEWLINE, v == [] || v[|v| - 1] != NEWLINE;
    || (raw == v && noLead && noTrail)
    || (raw == [NEWLINE] + v && noTrail)
    || (raw == v + [NEWLINE] && noLead)
    || raw == [NEWLINE] + v + [NEWLINE]
  }

  /**
   * The nodes cover text[lo..hi] from left to right without a gap, in a range that goes on to `end`. Stretches
   * of text are as long as they can be.
   */
  ghost predicate Covers(ctx: Context, nodes: seq<Node>, lo: nat, hi: nat, end: nat)
    decreases nodes
  {
    && lo <= hi <= end <= |ctx.text|
    && if nodes == [] then lo == hi
       else
         && (exists mid :: lo <= mid <= hi && NodeCovers(ctx, nodes[0], lo, mid, end)
                           && Covers(ctx, nodes[1..], mid, hi, end))
         && Joins(nodes[..1], nodes[1..])
  }

  /** No text meets text. */
  predicate Joins(a: seq<Node>, b: seq<Node>) { a != [] && b != [] ==> !(a[|a| - 1].TextNode? && b[0].TextNode?) }

  /**
   * A text node holds no link and nothing that could open a node; a link node is one link; a marker's or a
   * fence's node is the shortest there, and its content fills it.
   */
  ghost predicate NodeCovers(ctx: Context, n: Node, lo: nat, hi: nat, end: nat)
    decreases n
  {
    && lo < hi <= end <= |ctx.text|
    && match n
       case TextNode(v) =>
         v == ctx.text[lo..hi] && Unlinked(ctx, lo, hi) && forall p | lo <= p < hi :: NothingOpens(ctx, p, end)
       case LinkNode(v, url) => IsLink(ctx, lo, hi, v, url)
       case CodeNode(v) => Shortest(ctx, Code, lo, hi) && v == ctx.text[lo + 1..hi - 1]
       case Pre(v) => Fenced(ctx, lo, hi) && FenceContent(ctx.text[lo + 3..hi - 3], v)
       case Emphasis(kind, children) =>
         !kind.Code? && Shortest(ctx, kind, lo, hi) && Covers(ctx, children, lo + 1, hi - 1, hi - 1)
  }

  lemma CoversOne(ctx: Context, n: Node, lo: nat, hi: nat, end: nat)
    requires NodeCovers(ctx, n, lo, hi, end)
    ensures Covers(ctx, [n], lo, hi, end)
  {
    assert Covers(ctx, [n][1..], hi, hi, end);
  }

  lemma CoversCons(ctx: Context, n: Node, rest: seq<Node>, lo: nat, mid: nat, hi: nat, end: nat)
    requires NodeCovers(ctx, n, lo, mid, end) && Covers(ctx, rest, mid, hi, end) && Joins([n], rest)
    ensures Covers(ctx, [n] + rest, lo, hi, end)
  {
    assert ([n] + rest)[1..] == rest && ([n] + rest)[..1] == [n];
  }

  /** The end of the first node. */
  lemma FirstEnds(ctx: Context, nodes: seq<Node>, lo: nat, hi: nat, end: nat) returns (mid: nat)
    requires nodes != [] && Covers(ctx, nodes, lo, hi, end)
    ensures lo < mid <= hi <= end <= |ctx.text|
    ensures NodeCovers(ctx, nodes[0], lo, mid, end) && Covers(ctx, nodes[1..], mid, hi, end)
    ensures Joins(nodes[..1], nodes[1..])
  {
    mid :| lo <= mid <= hi && NodeCovers(ctx, nodes[0], lo, mid, end) && Covers(ctx, nodes[1..], mid, hi, end);
  }

  lemma JoinsBefore(a: seq<Node>, b: seq<Node>)
    requires a != [] && Joins(a, b) && Joins(a[..1], a[1..])
    ensures Joins(a[1..], b) && Joins([a[0]], a[1..] + b)
  {
    if a[1..] == [] {
      assert a == [a[0]] && a[1..] + b == b;
    } else {
      assert a[1..][|a| - 2] == a[|a| - 1] && (a[1..] + b)[0] == a[1..][0] && a[..1] == [a[0]];
    }
  }

  lemma {:induction false} CoversConcat(ctx: Context, a: seq<Node>, b: seq<Node>, lo: nat, mid: nat, hi: nat, end: nat)
    requires Covers(ctx, a, lo, mid, end) && Covers(ctx, b, mid, hi, end) && Joins(a, b)
    ensures Covers(ctx, a + b, lo, hi, end)
    decreases a
  {
    if a == [] {
      assert a + b == b;
    } else {
      var m := FirstEnds(ctx, a, lo, mid, end);
      JoinsBefore(a, b);
      CoversConcat(ctx, a[1..], b, m, mid, hi, end);
      CoversCons(ctx, a[0], a[1..] + b, lo, m, hi, end);
      assert a + b == [a[0]] + (a[1..] + b);
    }
  }

  lemma LinkAvoids(ctx: Context, k: nat, p: nat)
    requires Valid(ctx) && k < |ctx.links| && p < |ctx.text| && LinkAt(ctx, p).None?
    ensures ctx.links[k].end <= p || p < ctx.links[k].Start()
  {
    assert !ctx.links[k].Holds(p);
  }

  lemma LinksAreDisjoint(ctx: Context, j: nat, k: nat, p: nat)
    requires Valid(ctx) && j < |ctx.links| && k < |ctx.links| && p < |ctx.text|
    requires ctx.links[j].Holds(p) && ctx.links[k].Holds(p)
    ensures j == k
  {
    assert ctx.linkIndex[p] == j;
  }

  // ----- Only one tree -----

  /** What opens at a position: text where nothing does. */
  lemma OpeningDecides(ctx: Context, n: Node, lo: nat, hi: nat, end: nat)
    requires Valid(ctx) && NodeCovers(ctx, n, lo, hi, end)
    ensures n.LinkNode? <==> LinkAt(ctx, lo).Some?
    ensures n.Pre? ==> FenceAt(ctx.text, lo)
    ensures n.CodeNode? || n.Emphasis? ==> ctx.text[lo] != ctx.text[lo + 1]
    ensures !n.TextNode? && !n.LinkNode? ==> !NothingOpens(ctx, lo, end)
  {
    match n
    case LinkNode(v, url) =>
      var k :| 0 <= k < |ctx.links| && ctx.links[k] == Span(hi, Link(v, url)) && ctx.links[k].Start() == lo;
      assert ctx.links[k].Holds(lo);
    case Pre(_) =>
      FenceAligns(ctx, lo);
    case _ =>
  }

  /** `v` is `rest` without the newline that it ends with. */
  predicate EndsOff(rest: Text, v: Text) { (rest == v && (v == [] || v[|v| - 1] != NEWLINE)) || rest == v + [NEWLINE] }

  lemma SameEnd(rest: Text, v: Text, w: Text)
    requires EndsOff(rest, v) && EndsOff(rest, w)
    ensures v == w
  {
    assert (v + [NEWLINE])[..|v|] == v && (w + [NEWLINE])[..|w|] == w;
  }

  lemma ContentEndsOff(raw: Text, v: Text)
    requires FenceContent(raw, v)
    ensures EndsOff(if raw != [] && raw[0] == NEWLINE then raw[1..] else raw, v)
  {
    assert raw == [NEWLINE] + v + [NEWLINE] ==> raw[1..] == v + [NEWLINE];
  }

  lemma SameContent(raw: Text, v: Text, w: Text)
    requires FenceContent(raw, v) && FenceContent(raw, w)
    ensures v == w
  {
    ContentEndsOff(raw, v);
    ContentEndsOff(raw, w);
    SameEnd(if raw != [] && raw[0] == NEWLINE then raw[1..] else raw, v, w);
  }

  lemma SameLink(ctx: Context, a: Node, b: Node, lo: nat, m: nat, n: nat)
    requires Valid(ctx) && lo < m <= |ctx.text| && lo < n <= |ctx.text| && a.LinkNode? && b.LinkNode?
    requires IsLink(ctx, lo, m, a.value, a.url) && IsLink(ctx, lo, n, b.value, b.url)
    ensures a == b && m == n
  {
    var j :| 0 <= j < |ctx.links| && ctx.links[j] == Span(m, Link(a.value, a.url)) && ctx.links[j].Start() == lo;
    var k :| 0 <= k < |ctx.links| && ctx.links[k] == Span(n, Link(b.value, b.url)) && ctx.links[k].Start() == lo;
    LinksAreDisjoint(ctx, j, k, lo);
  }

  lemma SameFence(ctx: Context, lo: nat, m: nat, n: nat)
    requires Fenced(ctx, lo, m) && Fenced(ctx, lo, n)
    ensures m == n
  {
    assert FenceAt(ctx.text, m - 3) && FenceAt(ctx.text, n - 3);
  }

  lemma SameMarker(ctx: Context, a: Kind, b: Kind, lo: nat, m: nat, n: nat)
    requires Shortest(ctx, a, lo, m) && Shortest(ctx, b, lo, n)
    ensures a == b && m == n
  {
  }

  /** Text ends where something opens, so two stretches of text from one position are one. */
  lemma SameText(ctx: Context, a: seq<Node>, b: Node, lo: nat, m: nat, n: nat, hi: nat, end: nat)
    requires Valid(ctx) && lo < m && Covers(ctx, a, m, hi, end) && n <= hi && NodeCovers(ctx, b, lo, n, end)
    requires b.TextNode? && (a != [] ==> !a[0].TextNode?)
    ensures n <= m
  {
    if m < n {
      var k :| m <= k <= hi && NodeCovers(ctx, a[0], m, k, end) && Covers(ctx, a[1..], k, hi, end);
      assert NothingOpens(ctx, m, end) && LinkAt(ctx, m).None?;
      OpeningDecides(ctx, a[0], m, k, end);
    }
  }

  predicate IsMarker(n: Node) { n.CodeNode? || n.Emphasis? }

  lemma SameMarkerNode(ctx: Context, a: Node, b: Node, lo: nat, m: nat, n: nat, end: nat)
    requires IsMarker(a) && IsMarker(b) && NodeCovers(ctx, a, lo, m, end) && NodeCovers(ctx, b, lo, n, end)
    ensures m == n
    ensures if a.Emphasis? then b.Emphasis? && a.kind == b.kind else a == b
  {
    SameMarker(ctx, if a.CodeNode? then Code else a.kind, if b.CodeNode? then Code else b.kind, lo, m, n);
  }

  lemma SameFirst(ctx: Context, a: seq<Node>, b: seq<Node>, lo: nat, m: nat, n: nat, hi: nat, end: nat)
    requires Valid(ctx) && a != [] && b != [] && Joins(a[..1], a[1..]) && Joins(b[..1], b[1..])
    requires NodeCovers(ctx, a[0], lo, m, end) && Covers(ctx, a[1..], m, hi, end)
    requires NodeCovers(ctx, b[0], lo, n, end) && Covers(ctx, b[1..], n, hi, end)
    ensures m == n
    ensures if a[0].Emphasis? then b[0].Emphasis? && a[0].kind == b[0].kind else a[0] == b[0]
  {
    OpeningDecides(ctx, a[0], lo, m, end);
    OpeningDecides(ctx, b[0], lo, n, end);
    match a[0]
    case TextNode(_) =>
      SameText(ctx, a[1..], b[0], lo, m, n, hi, end);
      SameText(ctx, b[1..], a[0], lo, n, m, hi, end);
    case LinkNode(_, _) =>
      SameLink(ctx, a[0], b[0], lo, m, n);
    case Pre(v) =>
      SameFence(ctx, lo, m, n);
      SameContent(ctx.text[lo + 3..m - 3], v, b[0].value);
    case _ =>
      SameMarkerNode(ctx, a[0], b[0], lo, m, n, end);
  }

  /** The rules leave a range only one tree. */
  lemma {:induction false} OnlyOneTree(ctx: Context, a: seq<Node>, b: seq<Node>, lo: nat, hi: nat, end: nat)
    requires Valid(ctx) && Covers(ctx, a, lo, hi, end) && Covers(ctx, b, lo, hi, end)
    ensures a == b
    decreases a
  {
    if a != [] && b != [] {
      var m := FirstEnds(ctx, a, lo, hi, end);
      var n := FirstEnds(ctx, b, lo, hi, end);
      SameFirst(ctx, a, b, lo, m, n, hi, end);
      if a[0].Emphasis? {
        OnlyOneTree(ctx, a[0].children, b[0].children, lo + 1, m - 1, m - 1);
        assert a[0] == b[0];
      }
      OnlyOneTree(ctx, a[1..], b[1..], m, hi, end);
      assert a == [a[0]] + a[1..] && b == [b[0]] + b[1..];
    }
  }
}
