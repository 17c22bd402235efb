/**
 * The WhatsApp formatting parser (frontend/app/utils/message-format.js).
 * Parse searches for a closer at every opener; ParseRange remembers failed searches and yields the same tree.
 */
module MessageFormat {
  import opened Options
  import opened Text
  import opened MessageLinks

  datatype Kind = Bold | Italic | Strike | Code
  datatype Node =
    | TextNode(value: Text)
    | LinkNode(value: Text, url: Url)
    | Pre(value: Text)
    | CodeNode(value: Text)
    | Emphasis(kind: Kind, children: seq<Node>)

  /** A link of the text; it stands right before `end`. */
  datatype Span = Span(end: nat, part: Part) {
    function Start(): int { end - |part.value| }
    predicate Holds(i: int) { Start() <= i < end }
  }

  /** A text with its links; at each position, the number of the link there, or -1. */
  datatype Context = Context(text: Text, links: seq<Span>, linkIndex: seq<int>, classes: Classes)

  ghost predicate Valid(ctx: Context) {
    && Lawful(ctx.classes)
    && |ctx.linkIndex| == |ctx.text|
    && (forall i | 0 <= i < |ctx.text| :: -1 <= ctx.linkIndex[i] < |ctx.links|)
    && (forall k | 0 <= k < |ctx.links| :: GoodSpan(ctx.text, ctx.links[k]))
    && (forall i, k | 0 <= i < |ctx.text| && 0 <= k < |ctx.links| ::
          ctx.linkIndex[i] == k <==> ctx.links[k].Holds(i))
  }

  predicate GoodSpan(text: Text, s: Span) {
    && s.part.Link?
    && 0 <= s.Start() < s.end <= |text|
    && s.part.value == text[s.Start()..s.end]
    && BACKTICK !in s.part.value
  }

  // ----- Characters -----

  /** The code point that ends right before `index`; empty at the start of the text. */
  function CharBefore(text: Text, index: nat): Text
    requires index <= |text|
  {
    if index == 0 then []
    else if IsLowSurrogate(text[index - 1]) && index >= 2 then text[index - 2..index]
    else [text[index - 1]]
  }

  /** The code point that starts right after `index`; empty at the end of the text. */
  function CharAfter(text: Text, index: nat): Text {
    if index + 1 >= |text| then []
    else if IsHighSurrogate(text[index + 1]) && index + 2 < |text| && IsLowSurrogate(text[index + 2])
    then text[index + 1..index + 3]
    else [text[index + 1]]
  }

  predicate IsWordChar(classes: Classes, c: Text) { c != [] && classes.word(c) }

  function KindOf(u: Unit): Option<Kind> {
    if u == STAR then Some(Bold)
    else if u == UNDERSCORE then Some(Italic)
    else if u == TILDE then Some(Strike)
    else if u == BACKTICK then Some(Code)
    else None
  }

  function MarkOf(kind: Kind): Unit {
    match kind
    case Bold => STAR
    case Italic => UNDERSCORE
    case Strike => TILDE
    case Code => BACKTICK
  }

  function LinkAt(ctx: Context, i: nat): Option<Span> {
    if i < |ctx.linkIndex| && 0 <= ctx.linkIndex[i] < |ctx.links| then Some(ctx.links[ctx.linkIndex[i]]) else None
  }

  /** No link stretches over the boundary before position `p`. */
  predicate Aligned(ctx: Context, p: nat)
    requires |ctx.linkIndex| == |ctx.text|
  {
    p <= |ctx.text| &&
    (p == 0 || p == |ctx.text| || ctx.linkIndex[p - 1] < 0 || ctx.linkIndex[p - 1] != ctx.linkIndex[p])
  }

  lemma LinkFits(ctx: Context, i: nat, end: nat)
    requires Valid(ctx) && i < end && Aligned(ctx, end) && LinkAt(ctx, i).Some?
    ensures i < LinkAt(ctx, i).value.end <= end
    ensures Aligned(ctx, LinkAt(ctx, i).value.end)
    ensures Aligned(ctx, i) ==> LinkAt(ctx, i).value.Start() == i
  {
    var k := ctx.linkIndex[i];
    var s := ctx.links[k];
    assert s.Holds(i);
    if s.end > end {
      assert s.Holds(end - 1) && s.Holds(end);
    }
    if s.end < |ctx.text| {
      assert s.Holds(s.end - 1) && !s.Holds(s.end);
    }
    if s.Start() < i {
      assert s.Holds(i - 1) && s.Holds(i);
    }
  }

  lemma NoLinkAligns(ctx: Context, i: nat)
    requires Valid(ctx) && i < |ctx.text| && LinkAt(ctx, i).None?
    ensures Aligned(ctx, i) && Aligned(ctx, i + 1)
  {
  }

  lemma LinksHaveNoBacktick(ctx: Context, i: nat)
    requires Valid(ctx) && i < |ctx.text|
    ensures LinkAt(ctx, i).Some? ==> ctx.text[i] != BACKTICK
  {
    if LinkAt(ctx, i).Some? {
      var s := LinkAt(ctx, i).value;
      assert s.Holds(i);
      assert ctx.text[i] == s.part.value[i - s.Start()];
    }
  }

  // ----- Fences -----

  predicate FenceAt(text: Text, k: nat) {
    k + 3 <= |text| && text[k] == BACKTICK && text[k + 1] == BACKTICK && text[k + 2] == BACKTICK
  }

  /** indexOf: the first fence at or after `from`. */
  function NextFence(text: Text, from: nat): (r: Option<nat>)
    ensures r.Some? ==> from <= r.value && FenceAt(text, r.value)
    ensures forall k | from <= k && (r.Some? ==> k < r.value) :: !FenceAt(text, k)
    decreases |text| - from
  {
    if from + 3 > |text| then None
    else if FenceAt(text, from) then Some(from)
    else NextFence(text, from + 1)
  }

  datatype Search = Refused | Missed(to: nat) | Found(at: nat)

  function FenceEnd(ctx: Context, start: nat, end: nat): (r: Search)
    ensures r.Found? ==> start + 4 <= r.at && r.at + 3 <= end && FenceAt(ctx.text, r.at) && FenceAt(ctx.text, start)
  {
    if !FenceAt(ctx.text, start) then Refused
    else
      match NextFence(ctx.text, start + 4)
      case Some(close) => if close + 3 <= end then Found(close) else Missed(end)
      case None => Missed(end)
  }

  /** indexOf, position after position; `looks` counts those it looks at. */
  method FindFence(text: Text, from: nat) returns (r: Option<nat>, looks: nat)
    ensures r == NextFence(text, from)
    ensures from + looks <= if r.Some? then r.value + 1 else Max(|text|, from)
  {
    var k := from;
    looks := 0;
    while k + 3 <= |text|
      invariant k == from + looks && (looks > 0 ==> k <= |text|)
      invariant NextFence(text, k) == NextFence(text, from)
    {
      looks := looks + 1;
      if FenceAt(text, k) {
        return Some(k), looks;
      }
      k := k + 1;
    }
    return None, looks;
  }

  /** The first fence at or after `from`, or the end of the text. */
  function FenceAfter(text: Text, from: nat): (r: nat)
    ensures r <= |text| && forall k | from <= k < r :: !FenceAt(text, k)
  {
    match NextFence(text, from)
    case Some(k) => k
    case None => |text|
  }

  /** A bound on the search from an opening fence at `p`: it reads on to the next fence of the whole text. */
  function FenceReads(text: Text, p: nat): nat {
    if FenceAt(text, p) then Max(FenceAfter(text, p + 4), p) - p else 0
  }

  /** The same, for one search at each position of text[from..to]. */
  function FenceWork(text: Text, from: nat, to: nat): nat
    decreases to - from
  {
    if from >= to then 0 else FenceReads(text, from) + FenceWork(text, from + 1, to)
  }

  lemma {:induction false} FenceWorkAdds(text: Text, a: nat, b: nat, c: nat)
    requires a <= b <= c
    ensures FenceWork(text, a, c) == FenceWork(text, a, b) + FenceWork(text, b, c)
    decreases b - a
  {
    if a < b {
      FenceWorkAdds(text, a + 1, b, c);
    }
  }

  /** Four fences from `p` on, one behind the other; the end of the text stands for those that are missing. */
  ghost predicate FourFences(text: Text, p: nat, a: nat, b: nat, c: nat, d: nat) {
    && p <= a <= b <= c <= d <= |text|
    && (a < |text| ==> FenceAt(text, a) && a < b) && (b < |text| ==> FenceAt(text, b) && b < c)
    && (c < |text| ==> FenceAt(text, c) && c < d) && (d < |text| ==> FenceAt(text, d))
  }

  lemma SearchPassesThree(text: Text, p: nat, a: nat, b: nat, c: nat, d: nat)
    requires FenceAt(text, p) && FourFences(text, p + 1, a, b, c, d)
    ensures FenceReads(text, p) <= d - p
  {
  }

  /** A search from a fence passes over at most three others, so all of them together read each position four times. */
  lemma {:induction false} FenceWorkIsLinear(text: Text, p: nat) returns (a: nat, b: nat, c: nat, d: nat)
    requires p <= |text|
    ensures FourFences(text, p, a, b, c, d)
    ensures FenceWork(text, p, |text|) + a + b + c + d <= 4 * |text|
    decreases |text| - p
  {
    if p == |text| {
      return p, p, p, p;
    }
    a, b, c, d := FenceWorkIsLinear(text, p + 1);
    if FenceAt(text, p) {
      SearchPassesThree(text, p, a, b, c, d);
      a, b, c, d := p, a, b, c;
    }
  }

  /** The content without its first newline, if it starts with one, and without its last, if it ends with one. */
  function TrimFenceEdges(value: Text): Text {
    var v := if value != [] && value[0] == NEWLINE then value[1..] else value;
    if v != [] && v[|v| - 1] == NEWLINE then v[..|v| - 1] else v
  }

  // ----- Emphasis -----

  predicate CanOpen(ctx: Context, start: nat, end: nat)
    requires start < end <= |ctx.text|
  {
    && !IsWordChar(ctx.classes, CharBefore(ctx.text, start))
    && start + 1 < end
    && !ctx.classes.space(ctx.text[start + 1])
    && ctx.text[start + 1] != ctx.text[start]
  }

  /** Depends on the position alone, not on the opener. */
  predicate CanClose(ctx: Context, marker: Unit, k: nat)
    requires 0 < k < |ctx.text|
  {
    && ctx.text[k] == marker
    && LinkAt(ctx, k).None?
    && !ctx.classes.space(ctx.text[k - 1])
    && !IsWordChar(ctx.classes, CharAfter(ctx.text, k))
  }

  ghost predicate NothingCloses(ctx: Context, marker: Unit, from: nat, to: nat)
    requires 0 < from && to <= |ctx.text|
  {
    forall k | from <= k < to :: !CanClose(ctx, marker, k)
  }

  ghost predicate OneLine(ctx: Context, from: nat, to: nat)
    requires to <= |ctx.text|
  {
    forall k | from <= k < to :: ctx.text[k] != NEWLINE
  }

  /** The nearest closer from `k` on, within the line and before `end`. */
  function Scan(ctx: Context, marker: Unit, k: nat, end: nat): (r: Search)
    requires 0 < k <= end <= |ctx.text| && marker != NEWLINE
    ensures !r.Refused?
    ensures r.Found? ==> k <= r.at < end && CanClose(ctx, marker, r.at)
                         && NothingCloses(ctx, marker, k, r.at) && OneLine(ctx, k, r.at + 1)
    ensures r.Missed? ==> k <= r.to <= end && NothingCloses(ctx, marker, k, r.to) && OneLine(ctx, k, r.to)
                          && (r.to < end ==> ctx.text[r.to] == NEWLINE)
    decreases end - k
  {
    if k == end || ctx.text[k] == NEWLINE then Missed(k)
    else if CanClose(ctx, marker, k) then Found(k)
    else Scan(ctx, marker, k + 1, end)
  }

  function EmphasisSearch(ctx: Context, start: nat, end: nat): (r: Search)
    requires start < end <= |ctx.text| && KindOf(ctx.text[start]).Some?
    ensures r.Found? ==> start + 2 <= r.at < end && LinkAt(ctx, r.at).None? && ctx.text[r.at] == ctx.text[start]
  {
    if !CanOpen(ctx, start, end) then Refused else Scan(ctx, ctx.text[start], start + 2, end)
  }

  /** The loop of one search; `steps` counts the positions it looks at. */
  method EmphasisEnd(ctx: Context, start: nat, end: nat) returns (r: Search, steps: nat)
    requires start < end <= |ctx.text| && KindOf(ctx.text[start]).Some?
    ensures r == EmphasisSearch(ctx, start, end)
    ensures r.Refused? ==> steps == 0
    ensures r.Missed? ==> steps < r.to - start
    ensures r.Found? ==> steps < r.at - start
  {
    var marker := ctx.text[start];
    steps := 0;
    if IsWordChar(ctx.classes, CharBefore(ctx.text, start)) {
      return Refused, steps;
    }
    if start + 1 >= end || ctx.classes.space(ctx.text[start + 1]) || ctx.text[start + 1] == marker {
      return Refused, steps;
    }
    var i := start + 2;
    while i < end
      invariant start + 2 <= i <= end
      invariant steps == i - start - 2
      invariant Scan(ctx, marker, start + 2, end) == Scan(ctx, marker, i, end)
    {
      steps := steps + 1;
      var unit := ctx.text[i];
      if unit == NEWLINE {
        break;
      }
      if unit == marker && LinkAt(ctx, i).None? {
        if !ctx.classes.space(ctx.text[i - 1]) && !IsWordChar(ctx.classes, CharAfter(ctx.text, i)) {
          return Found(i), steps;
        }
      }
      i := i + 1;
    }
    return Missed(i), steps;
  }

  // ----- Plain stretches -----

  /** The nodes of text[cursor..end] when no link starts in text[cursor..i]. */
  function PlainFrom(ctx: Context, cursor: nat, i: nat, end: nat): seq<Node>
    requires Valid(ctx) && cursor <= i <= end && Aligned(ctx, end)
    decreases end - i
  {
    if i == end then
      if end > cursor then [TextNode(ctx.text[cursor..end])] else []
    else if LinkAt(ctx, i).None? then
      PlainFrom(ctx, cursor, i + 1, end)
    else
      var link := LinkAt(ctx, i).value;
      LinkFits(ctx, i, end);
      (if i > cursor then [TextNode(ctx.text[cursor..i])] else [])
      + [LinkNode(link.part.value, link.part.url)]
      + PlainFrom(ctx, link.end, link.end, end)
  }

  method PushPlain(ctx: Context, nodes: seq<Node>, start: nat, end: nat) returns (r: seq<Node>)
    requires Valid(ctx) && start <= end && Aligned(ctx, end)
    ensures r == nodes + PlainFrom(ctx, start, start, end)
  {
    r := nodes;
    var cursor: nat := start;
    var i: nat := start;
    while i < end
      invariant cursor <= i <= end
      invariant r + PlainFrom(ctx, cursor, i, end) == nodes + PlainFrom(ctx, start, start, end)
    {
      var link := LinkAt(ctx, i);
      if link.None? {
        i := i + 1;
        continue;
      }
      LinkFits(ctx, i, end);
      if i > cursor {
        r := r + [TextNode(ctx.text[cursor..i])];
      }
      r := r + [LinkNode(link.value.part.value, link.value.part.url)];
      cursor := link.value.end;
      i := cursor;
    }
    if end > cursor {
      r := r + [TextNode(ctx.text[cursor..end])];
    }
  }

  // ----- The tree -----

  lemma FenceAligns(ctx: Context, k: nat)
    requires Valid(ctx) && FenceAt(ctx.text, k)
    ensures Aligned(ctx, k) && Aligned(ctx, k + 3)
    ensures LinkAt(ctx, k).None? && LinkAt(ctx, k + 1).None? && LinkAt(ctx, k + 2).None?
  {
    LinksHaveNoBacktick(ctx, k);
    LinksHaveNoBacktick(ctx, k + 1);
    LinksHaveNoBacktick(ctx, k + 2);
  }

  /** What stands at a position: nothing or a link (go on at `to`), a fence or a marker with its closer. */
  datatype Step = Skip(to: nat) | Fence(close: nat) | Marker(close: nat) {
    function After(): nat {
      match this
      case Skip(to) => to
      case Fence(close) => close + 3
      case Marker(close) => close + 1
    }
  }

  /** Searches at every opener, without a memo. */
  function StepAt(ctx: Context, i: nat, end: nat): (r: Step)
    requires Valid(ctx) && i < end && Aligned(ctx, i) && Aligned(ctx, end)
    ensures i < r.After() <= end && Aligned(ctx, r.After())
    ensures r.Fence? ==> i + 4 <= r.close && FenceAt(ctx.text, i) && FenceAt(ctx.text, r.close)
    ensures r.Marker? ==> KindOf(ctx.text[i]).Some? && EmphasisSearch(ctx, i, end) == Found(r.close)
                          && LinkAt(ctx, i).None? && Aligned(ctx, i + 1) && Aligned(ctx, r.close)
  {
    if LinkAt(ctx, i).Some? then
      LinkFits(ctx, i, end);
      Skip(LinkAt(ctx, i).value.end)
    else
      NoLinkAligns(ctx, i);
      var fence := FenceEnd(ctx, i, end);
      if fence.Found? then
        FenceAligns(ctx, fence.at);
        Fence(fence.at)
      else if KindOf(ctx.text[i]).Some? && EmphasisSearch(ctx, i, end).Found? then
        var close := EmphasisSearch(ctx, i, end).at;
        NoLinkAligns(ctx, close);
        Marker(close)
      else
        Skip(i + 1)
  }

  /** The node that a fence or a marker at `i` opens. */
  function NodeFor(ctx: Context, i: nat, end: nat, step: Step): Node
    requires Valid(ctx) && i < end && Aligned(ctx, i) && Aligned(ctx, end) && step == StepAt(ctx, i, end) && !step.Skip?
    decreases end - i, 0
  {
    var kind := KindOf(ctx.text[i]);
    if step.Fence? then Pre(TrimFenceEdges(ctx.text[i + 3..step.close]))
    else if kind.value.Code? then CodeNode(ctx.text[i + 1..step.close])
    else Emphasis(kind.value, Parse(ctx, i + 1, step.close))
  }

  /** The nodes of text[plain..end] when text[plain..i] is known to be plain. */
  function ParseFrom(ctx: Context, plain: nat, i: nat, end: nat): seq<Node>
    requires Valid(ctx) && plain <= i <= end && Aligned(ctx, i) && Aligned(ctx, end)
    decreases end - i, 1
  {
    if i == end then PlainFrom(ctx, plain, plain, end)
    else
      var step := StepAt(ctx, i, end);
      if step.Skip? then ParseFrom(ctx, plain, step.After(), end)
      else
        PlainFrom(ctx, plain, plain, i)
        + [NodeFor(ctx, i, end, step)]
        + ParseFrom(ctx, step.After(), step.After(), end)
  }

  function Parse(ctx: Context, start: nat, end: nat): seq<Node>
    requires Valid(ctx) && start <= end && Aligned(ctx, start) && Aligned(ctx, end)
    decreases end - start, 2
  {
    ParseFrom(ctx, start, start, end)
  }

  // ----- The memo -----

  /** Per marker, the point before which every opener fails; 0 when nothing is known. */
  datatype Scanned = Scanned(fence: nat, bold: nat, italic: nat, strike: nat, code: nat) {
    function Get(kind: Kind): nat {
      match kind
      case Bold => bold
      case Italic => italic
      case Strike => strike
      case Code => code
    }

    function Set(kind: Kind, to: nat): Scanned {
      match kind
      case Bold => this.(bold := to)
      case Italic => this.(italic := to)
      case Strike => this.(strike := to)
      case Code => this.(code := to)
    }

    /** How far the searches of the markers may have come at position `i`, added up. */
    function Covered(kinds: seq<Kind>, i: nat): nat {
      if kinds == [] then 0 else Covered(kinds[..|kinds| - 1], i) + Max(Get(kinds[|kinds| - 1]), i)
    }
  }

  const KINDS: seq<Kind> := [Bold, Italic, Strike, Code]

  function Max(a: nat, b: nat): nat { if a > b then a else b }

  ghost predicate Fails(ctx: Context, kind: Kind, p: nat, end: nat)
    requires p < end <= |ctx.text|
  {
    ctx.text[p] == MarkOf(kind) ==> !EmphasisSearch(ctx, p, end).Found?
  }

  /** Every opener between `i` and its marker's point fails. */
  ghost predicate Remembers(ctx: Context, scanned: Scanned, i: nat, end: nat)
    requires end <= |ctx.text|
  {
    && (forall p | i <= p < scanned.fence && p < end :: !FenceEnd(ctx, p, end).Found?)
    && (forall kind: Kind :: scanned.Get(kind) <= end && forall p | i <= p < scanned.Get(kind) :: Fails(ctx, kind, p, end))
  }

  lemma FailedSearchCarries(ctx: Context, i: nat, p: nat, end: nat)
    requires Valid(ctx) && i <= p < end <= |ctx.text| && KindOf(ctx.text[i]).Some?
    requires EmphasisSearch(ctx, i, end).Missed? && p < EmphasisSearch(ctx, i, end).to
    ensures Fails(ctx, KindOf(ctx.text[i]).value, p, end)
  {
    var marker := ctx.text[i];
    var to := EmphasisSearch(ctx, i, end).to;
    assert Scan(ctx, marker, i + 2, end) == Missed(to);
    if i < p && ctx.text[p] == marker && CanOpen(ctx, p, end) {
      assert to != p + 1;
      assert !Scan(ctx, marker, p + 2, end).Found?;
    }
  }

  lemma FailedFenceCarries(ctx: Context, i: nat, p: nat, end: nat)
    requires i <= p && FenceEnd(ctx, i, end).Missed?
    ensures !FenceEnd(ctx, p, end).Found?
  {
  }

  // ----- No marker inside itself -----

  /** Within the range no position can close one of the active markers. */
  ghost predicate Barren(ctx: Context, active: set<Kind>, start: nat, end: nat)
    requires end <= |ctx.text|
  {
    forall kind | kind in active :: NothingCloses(ctx, MarkOf(kind), start + 1, end)
  }

  lemma OpenerIsNew(ctx: Context, active: set<Kind>, start: nat, end: nat, i: nat)
    requires start <= i < end <= |ctx.text| && Barren(ctx, active, start, end)
    requires KindOf(ctx.text[i]).Some? && EmphasisSearch(ctx, i, end).Found?
    ensures KindOf(ctx.text[i]).value !in active
    ensures Barren(ctx, active + {KindOf(ctx.text[i]).value}, i + 1, EmphasisSearch(ctx, i, end).at)
  {
    var close := EmphasisSearch(ctx, i, end).at;
    assert CanClose(ctx, ctx.text[i], close);
  }

  const EMPHASES: set<Kind> := {Bold, Italic, Strike}

  lemma ActiveMarkersAreFew(active: set<Kind>, kind: Kind)
    requires active <= EMPHASES && kind in EMPHASES && kind !in active
    ensures |active + {kind}| == |active| + 1 <= 3
  {
    SubsetCardinality(active + {kind}, EMPHASES);
    assert EMPHASES == {Bold} + {Italic} + {Strike};
  }

  lemma SubsetCardinality<T>(a: set<T>, b: set<T>)
    requires a <= b
    ensures |a| <= |b|
  {
    assert b == a + (b - a);
  }

  /** The length, once for each of four markers on each level still possible below the active markers. */
  function ScanBound(active: set<Kind>, length: int): int {
    if |active| >= 3 then 4 * length
    else if |active| == 2 then 8 * length
    else if |active| == 1 then 12 * length
    else 16 * length
  }

  /** What is left of the bound for the levels below. */
  function NestedBound(active: set<Kind>, length: int): int { ScanBound(active, length) - 4 * length }

  lemma DeeperIsCheaper(active: set<Kind>, kind: Kind, length: int)
    requires active <= EMPHASES && kind in EMPHASES && kind !in active
    ensures ScanBound(active + {kind}, length) == NestedBound(active, length)
  {
    ActiveMarkersAreFew(active, kind);
  }

  lemma NestedBoundAdds(active: set<Kind>, a: nat, b: nat, c: nat)
    requires a + b <= c
    ensures 0 <= NestedBound(active, a) + NestedBound(active, b) <= NestedBound(active, c)
  {
  }

  /** Between `i` and `j` the memo has moved on by no less than `steps`. */
  predicate Pays(s: Scanned, t: Scanned, i: nat, j: nat, steps: int) {
    steps + s.Covered(KINDS, i) <= t.Covered(KINDS, j)
  }

  lemma {:induction false} CoveredMovesOn(s: Scanned, t: Scanned, kinds: seq<Kind>, i: nat, j: nat)
    requires i <= j && forall kind | kind in kinds :: s.Get(kind) <= t.Get(kind)
    ensures s.Covered(kinds, i) <= t.Covered(kinds, j)
  {
    if kinds != [] {
      CoveredMovesOn(s, t, kinds[..|kinds| - 1], i, j);
    }
  }

  lemma CoveredGrows(s: Scanned, t: Scanned, i: nat, j: nat)
    requires i <= j && t == s.(fence := t.fence)
    ensures Pays(s, t, i, j, 0)
  {
    CoveredMovesOn(s, t, KINDS, i, j);
  }

  lemma PaysOn(s: Scanned, t: Scanned, u: Scanned, i: nat, j: nat, steps: int)
    requires t == s.(fence := t.fence) && Pays(t, u, i, j, steps)
    ensures Pays(s, u, i, j, steps)
  {
    CoveredMovesOn(s, t, KINDS, i, i);
  }

  /** One marker's point pays for its search; the others only move on. */
  lemma {:induction false} OneKindPays(s: Scanned, t: Scanned, kinds: seq<Kind>, kind: Kind, i: nat, j: nat, steps: nat)
    requires i <= j && kind in kinds && forall k | k in kinds :: s.Get(k) <= t.Get(k)
    requires steps + Max(s.Get(kind), i) <= Max(t.Get(kind), j)
    ensures steps + s.Covered(kinds, i) <= t.Covered(kinds, j)
  {
    var init, last := kinds[..|kinds| - 1], kinds[|kinds| - 1];
    if last == kind {
      CoveredMovesOn(s, t, init, i, j);
    } else {
      OneKindPays(s, t, init, kind, i, j, steps);
    }
  }

  lemma CoveredSnoc(s: Scanned, kinds: seq<Kind>, kind: Kind, i: nat)
    ensures s.Covered(kinds + [kind], i) == s.Covered(kinds, i) + Max(s.Get(kind), i)
  {
    assert (kinds + [kind])[..|kinds|] == kinds;
  }

  lemma CoveredAddsUp(s: Scanned, i: nat)
    ensures s.Covered(KINDS, i) == Max(s.bold, i) + Max(s.italic, i) + Max(s.strike, i) + Max(s.code, i)
  {
    CoveredSnoc(s, [], Bold, i);
    CoveredSnoc(s, [] + [Bold], Italic, i);
    CoveredSnoc(s, [] + [Bold] + [Italic], Strike, i);
    CoveredSnoc(s, [] + [Bold] + [Italic] + [Strike], Code, i);
    assert KINDS == [] + [Bold] + [Italic] + [Strike] + [Code];
  }

  /** A failed search is remembered for its marker and leaves the others. */
  lemma MissIsRemembered(ctx: Context, scanned: Scanned, i: nat, end: nat, kind: Kind, to: nat)
    requires Valid(ctx) && i < end <= |ctx.text| && KindOf(ctx.text[i]) == Some(kind)
    requires Remembers(ctx, scanned, i, end) && EmphasisSearch(ctx, i, end) == Missed(to)
    ensures Remembers(ctx, scanned.Set(kind, to), i + 1, end)
  {
    var memo := scanned.Set(kind, to);
    assert forall k: Kind :: memo.Get(k) == if k == kind then to else scanned.Get(k);
    forall p | i <= p < to ensures Fails(ctx, kind, p, end) {
      FailedSearchCarries(ctx, i, p, end);
    }
  }

  /** What a search from `i` may cost: what it reads, its marker's point moves on, or the parser does. */
  predicate Worth(scanned: Scanned, kind: Kind, to: nat, found: Search, i: nat, steps: nat) {
    && scanned.Get(kind) <= to
    && if found.Found? then scanned.Get(kind) == to <= i && i + steps <= found.at
       else steps + Max(scanned.Get(kind), i) <= Max(to, i)
  }

  /** One opener of an emphasis: the memo moves past everything that its search has read in vain. */
  method SearchOnce(ctx: Context, i: nat, end: nat, kind: Kind, scanned: Scanned)
      returns (found: Search, to: nat, steps: nat)
    requires Valid(ctx) && i < end <= |ctx.text| && KindOf(ctx.text[i]) == Some(kind)
    requires Remembers(ctx, scanned, i, end)
    ensures found.Found? <==> EmphasisSearch(ctx, i, end).Found?
    ensures found.Found? ==> found == EmphasisSearch(ctx, i, end)
    ensures Remembers(ctx, scanned.Set(kind, to), i + 1, end)
    ensures Worth(scanned, kind, to, found, i, steps)
  {
    found, to, steps := Refused, scanned.Get(kind), 0;
    assert scanned.Set(kind, to) == scanned;
    if to > i {
      assert Fails(ctx, kind, i, end);
      return;
    }
    found, steps := EmphasisEnd(ctx, i, end);
    if found.Missed? {
      to := found.to;
      MissIsRemembered(ctx, scanned, i, end, kind, to);
    }
  }

  lemma SearchPays(scanned: Scanned, kind: Kind, to: nat, found: Search, i: nat, steps: nat)
    requires Worth(scanned, kind, to, found, i, steps)
    ensures Pays(scanned, scanned.Set(kind, to), i, if found.Found? then found.at + 1 else i + 1, steps)
  {
    var memo := scanned.Set(kind, to);
    assert forall k: Kind :: memo.Get(k) == if k == kind then to else scanned.Get(k);
    assert kind in KINDS;
    OneKindPays(scanned, memo, KINDS, kind, i, if found.Found? then found.at + 1 else i + 1, steps);
  }

  /** A fence at `i`, unless an earlier search already showed that none can be closed. */
  method FenceOnce(ctx: Context, i: nat, end: nat, scanned: Scanned)
      returns (fence: Search, memo: Scanned, looks: nat)
    requires i < end <= |ctx.text| && Remembers(ctx, scanned, i, end)
    ensures fence.Found? <==> FenceEnd(ctx, i, end).Found?
    ensures fence.Found? ==> fence == FenceEnd(ctx, i, end)
    ensures Remembers(ctx, memo, i, end)
    ensures memo == scanned.(fence := memo.fence) && looks <= FenceReads(ctx.text, i)
  {
    memo := scanned;
    if scanned.fence > i || !FenceAt(ctx.text, i) {
      return Refused, memo, 0;
    }
    var close;
    close, looks := FindFence(ctx.text, i + 4);
    if close.Some? && close.value + 3 <= end {
      return Found(close.value), memo, looks;
    }
    fence, memo := Missed(end), scanned.(fence := end);
    assert FenceEnd(ctx, i, end) == fence;
    forall p | i <= p ensures !FenceEnd(ctx, p, end).Found? {
      FailedFenceCarries(ctx, i, p, end);
    }
    assert forall kind: Kind :: memo.Get(kind) == scanned.Get(kind);
  }

  lemma CoveredWithinRange(ctx: Context, scanned: Scanned, i: nat, end: nat)
    requires i <= end <= |ctx.text| && Remembers(ctx, scanned, i, end)
    ensures 4 * i <= scanned.Covered(KINDS, i) <= 4 * end
  {
    CoveredAddsUp(scanned, i);
    assert scanned.Get(Bold) <= end && scanned.Get(Italic) <= end && scanned.Get(Strike) <= end && scanned.Get(Code) <= end;
  }

  /** One turn of the parser's loop: the same step as without a memo. */
  method StepOnce(ctx: Context, i: nat, end: nat, scanned: Scanned) returns (step: Step, memo: Scanned, steps: nat)
    requires Valid(ctx) && i < end && Aligned(ctx, i) && Aligned(ctx, end) && Remembers(ctx, scanned, i, end)
    ensures step == StepAt(ctx, i, end)
    ensures Remembers(ctx, memo, step.After(), end)
    ensures Pays(scanned, memo, i, step.After(), steps - FenceReads(ctx.text, i))
  {
    var link := LinkAt(ctx, i);
    if link.Some? {
      CoveredGrows(scanned, scanned, i, link.value.end);
      return Skip(link.value.end), scanned, 0;
    }
    step, memo, steps := OpenerOnce(ctx, i, end, scanned);
  }

  /** A turn where no link stands. */
  method OpenerOnce(ctx: Context, i: nat, end: nat, scanned: Scanned) returns (step: Step, memo: Scanned, steps: nat)
    requires Valid(ctx) && i < end && Aligned(ctx, i) && Aligned(ctx, end) && Remembers(ctx, scanned, i, end)
    requires LinkAt(ctx, i).None?
    ensures step == StepAt(ctx, i, end)
    ensures Remembers(ctx, memo, step.After(), end)
    ensures Pays(scanned, memo, i, step.After(), steps - FenceReads(ctx.text, i))
  {
    var fence, fenced, looks;
    fence, fenced, looks := FenceOnce(ctx, i, end, scanned);
    if fence.Found? {
      CoveredGrows(scanned, fenced, i, fence.at + 3);
      return Fence(fence.at), fenced, looks;
    }
    step, memo, steps := MarkerOnce(ctx, i, end, fenced);
    PaysOn(scanned, fenced, memo, i, step.After(), steps);
    steps := looks + steps;
  }

  /** The rest of a turn, where neither a link nor a fence stands. */
  method MarkerOnce(ctx: Context, i: nat, end: nat, scanned: Scanned) returns (step: Step, memo: Scanned, steps: nat)
    requires Valid(ctx) && i < end && Aligned(ctx, i) && Aligned(ctx, end) && Remembers(ctx, scanned, i, end)
    requires LinkAt(ctx, i).None? && !FenceEnd(ctx, i, end).Found?
    ensures step == StepAt(ctx, i, end)
    ensures Remembers(ctx, memo, step.After(), end)
    ensures Pays(scanned, memo, i, step.After(), steps)
  {
    var kind := KindOf(ctx.text[i]);
    if kind.None? {
      CoveredGrows(scanned, scanned, i, i + 1);
      return Skip(i + 1), scanned, 0;
    }
    var found;
    var to;
    found, to, steps := SearchOnce(ctx, i, end, kind.value, scanned);
    memo := scanned.Set(kind.value, to);
    SearchPays(scanned, kind.value, to, found, i, steps);
    step := if found.Found? then Marker(found.at) else Skip(i + 1);
  }

  lemma StepUnfolds(ctx: Context, nodes: seq<Node>, plain: nat, i: nat, end: nat)
    requires Valid(ctx) && plain <= i < end && Aligned(ctx, i) && Aligned(ctx, end)
    requires !StepAt(ctx, i, end).Skip?
    ensures nodes + ParseFrom(ctx, plain, i, end) ==
            nodes + PlainFrom(ctx, plain, plain, i) + [NodeFor(ctx, i, end, StepAt(ctx, i, end))]
            + ParseFrom(ctx, StepAt(ctx, i, end).After(), StepAt(ctx, i, end).After(), end)
  {
  }

  /**
   * The parser with its memo: the same tree as Parse. `looks` counts every character that its searches for a
   * closer look at, for emphasis and for fences.
   */
  method ParseRange(ctx: Context, start: nat, end: nat, ghost active: set<Kind>)
      returns (nodes: seq<Node>, looks: nat)
    requires Valid(ctx) && start <= end && Aligned(ctx, start) && Aligned(ctx, end)
    requires active <= EMPHASES && Barren(ctx, active, start, end)
    ensures nodes == Parse(ctx, start, end)
    ensures looks <= ScanBound(active, end - start) + FenceWork(ctx.text, start, end)
    decreases end - start, 3
  {
    nodes, looks := [], 0;
    var scanned := Scanned(0, 0, 0, 0, 0);
    var plainStart: nat, i: nat := start, start;
    CoveredWithinRange(ctx, scanned, start, end);
    while i < end
      invariant start <= plainStart <= i <= end && Aligned(ctx, i)
      invariant nodes + ParseFrom(ctx, plainStart, i, end) == Parse(ctx, start, end)
      invariant Remembers(ctx, scanned, i, end)
      invariant WithinBudget(looks - FenceWork(ctx.text, start, i), scanned, active, start, i)
    {
      nodes, plainStart, i, scanned, looks := Turn(ctx, nodes, start, plainStart, i, end, scanned, looks, active);
    }
    nodes := PushPlain(ctx, nodes, plainStart, end);
    BudgetSuffices(ctx, looks - FenceWork(ctx.text, start, end), scanned, active, start, end);
  }

  /**
   * What the range may have cost up to `i` beside the fences: its own searches as far as they are remembered,
   * and the levels below.
   */
  predicate WithinBudget(scans: int, scanned: Scanned, active: set<Kind>, start: nat, i: nat) {
    scans + 4 * start <= scanned.Covered(KINDS, i) + NestedBound(active, i - start)
  }

  lemma BudgetGrows(scans: int, scanned: Scanned, memo: Scanned, active: set<Kind>, start: nat, i: nat, next: nat,
                    steps: int, more: int)
    requires start <= i <= next && WithinBudget(scans, scanned, active, start, i)
    requires Pays(scanned, memo, i, next, steps) && more <= NestedBound(active, next - i)
    ensures WithinBudget(scans + steps + more, memo, active, start, next)
  {
    NestedBoundAdds(active, i - start, next - i, next - start);
  }

  lemma BudgetSuffices(ctx: Context, scans: int, scanned: Scanned, active: set<Kind>, start: nat, end: nat)
    requires start <= end <= |ctx.text| && Remembers(ctx, scanned, end, end)
    requires WithinBudget(scans, scanned, active, start, end)
    ensures scans <= ScanBound(active, end - start)
  {
    CoveredWithinRange(ctx, scanned, end, end);
  }

  /** The fences up to `next`: those before `i`, the one at `i` and those behind it. */
  lemma FenceWorkGrows(text: Text, start: nat, i: nat, next: nat)
    requires start <= i < next
    ensures FenceWork(text, start, next) ==
            FenceWork(text, start, i) + FenceReads(text, i) + FenceWork(text, i + 1, next)
  {
    FenceWorkAdds(text, start, i, next);
  }

  /** One turn of the loop: what its own searches read, and those of the node that it opens. */
  method Turn(ctx: Context, nodes: seq<Node>, ghost start: nat, plainStart: nat, i: nat, end: nat, scanned: Scanned,
              looks: nat, ghost active: set<Kind>)
      returns (r: seq<Node>, plain: nat, next: nat, memo: Scanned, total: nat)
    requires Valid(ctx) && start <= plainStart <= i < end && Aligned(ctx, i) && Aligned(ctx, end)
    requires Remembers(ctx, scanned, i, end)
    requires WithinBudget(looks - FenceWork(ctx.text, start, i), scanned, active, start, i)
    requires active <= EMPHASES && Barren(ctx, active, start, end)
    ensures i < next <= end && plainStart <= plain <= next && Aligned(ctx, next)
    ensures r + ParseFrom(ctx, plain, next, end) == nodes + ParseFrom(ctx, plainStart, i, end)
    ensures Remembers(ctx, memo, next, end)
    ensures WithinBudget(total - FenceWork(ctx.text, start, next), memo, active, start, next)
    decreases end - i, 2
  {
    var step, steps;
    step, memo, steps := StepOnce(ctx, i, end, scanned);
    var more: nat := 0;
    r, plain, next := nodes, plainStart, step.After();
    NestedBoundAdds(active, 0, next - i, next - i);
    if !step.Skip? {
      r, more := PushStep(ctx, nodes, start, plainStart, i, end, step, active);
      plain := next;
    }
    FenceWorkGrows(ctx.text, start, i, next);
    BudgetGrows(looks - FenceWork(ctx.text, start, i), scanned, memo, active, start, i, next,
                steps - FenceReads(ctx.text, i), more - FenceWork(ctx.text, i + 1, next));
    total := looks + steps + more;
  }

  /** Appends the plain text before a fence or a marker and the node that it opens. */
  method PushStep(ctx: Context, nodes: seq<Node>, ghost start: nat, plainStart: nat, i: nat, end: nat,
                  step: Step, ghost active: set<Kind>)
      returns (r: seq<Node>, looks: nat)
    requires Valid(ctx) && start <= plainStart <= i < end && Aligned(ctx, i) && Aligned(ctx, end)
    requires step == StepAt(ctx, i, end) && !step.Skip?
    requires active <= EMPHASES && Barren(ctx, active, start, end)
    ensures r + ParseFrom(ctx, step.After(), step.After(), end) == nodes + ParseFrom(ctx, plainStart, i, end)
    ensures looks <= NestedBound(active, step.After() - i) + FenceWork(ctx.text, i + 1, step.After())
    decreases end - i, 1
  {
    StepUnfolds(ctx, nodes, plainStart, i, end);
    var node;
    node, looks := NodeOf(ctx, start, i, end, step, active);
    r := PushPlain(ctx, nodes, plainStart, i);
    r := r + [node];
  }

  /** The node that a fence or a marker opens. */
  method NodeOf(ctx: Context, ghost start: nat, i: nat, end: nat, step: Step, ghost active: set<Kind>)
      returns (node: Node, looks: nat)
    requires Valid(ctx) && start <= i < end && Aligned(ctx, i) && Aligned(ctx, end)
    requires step == StepAt(ctx, i, end) && !step.Skip?
    requires active <= EMPHASES && Barren(ctx, active, start, end)
    ensures node == NodeFor(ctx, i, end, step)
    ensures looks <= NestedBound(active, step.After() - i) + FenceWork(ctx.text, i + 1, step.After())
    decreases end - i, 0
  {
    NestedBoundAdds(active, 0, if step.Marker? then step.close - i - 1 else 0, step.After() - i);
    if step.Fence? {
      return Pre(TrimFenceEdges(ctx.text[i + 3..step.close])), 0;
    }
    var kind := KindOf(ctx.text[i]).value;
    if kind.Code? {
      return CodeNode(ctx.text[i + 1..step.close]), 0;
    }
    OpenerIsNew(ctx, active, start, end, i);
    DeeperIsCheaper(active, kind, step.close - i - 1);
    FenceWorkAdds(ctx.text, i + 1, step.close, step.After());
    var children;
    children, looks := ParseRange(ctx, i + 1, step.close, active + {kind});
    node := Emphasis(kind, children);
  }
}
