/**
 * The parts of a message: its web links and what stands between them (frontend/app/utils/message-links.js).
 * The matches of the link pattern and the URL constructor are inputs; see ValidMatches and SafeUrl.
 */
module MessageLinks {
  import opened Options
  import opened Text

  datatype Url = Url(href: Text, host: Text)
  datatype Part = Plain(value: Text) | Link(value: Text, url: Url)

  /** The URL constructor with the protocol test; it refuses the empty text. */
  type UrlCheck = f: Text -> Option<Url> | f([]) == None witness _ => None

  /** One match of the link pattern: where the candidate starts and how long it is. */
  datatype Match = Match(start: nat, length: nat) {
    function End(): nat { start + length }
  }

  function Candidate(text: Text, m: Match): Text
    requires m.End() <= |text|
  {
    text[m.start..m.End()]
  }

  /** A global match: in range, in order, never overlapping, and never over a backtick. */
  ghost predicate ValidMatches(text: Text, matches: seq<Match>) {
    && (forall i | 0 <= i < |matches| :: matches[i].End() <= |text|)
    && (forall i, k | 0 <= i < |matches| && matches[i].start <= k < matches[i].End() && k < |text| ::
          text[k] != BACKTICK)
    && (forall i, j | 0 <= i < j < |matches| :: matches[i].End() <= matches[j].start)
  }

  // ----- Trimming a candidate -----

  /** The marks . , ! ? ; : ' " * _ ~ and the closing square bracket. */
  predicate IsTrailingMark(u: Unit) {
    u == 46 || u == 44 || u == 33 || u == 63 || u == 59 || u == 58 || u == 39 || u == 34
    || u == STAR || u == UNDERSCORE || u == TILDE || u == 93
  }

  /** May end a link: no trailing mark, no closing bracket that the link did not open. Counts afresh. */
  predicate Clean(s: Text) {
    s == [] ||
    var last := s[|s| - 1];
    !IsTrailingMark(last) && !(last == CLOSE_PAREN && Count(s, CLOSE_PAREN) > Count(s, OPEN_PAREN))
  }

  /** Recounts the brackets at every step: the longest clean prefix. */
  function Trim(s: Text): (r: Text)
    ensures r <= s && Clean(r)
    ensures forall k | |r| < k <= |s| :: !Clean(s[..k])
  {
    if Clean(s) then s
    else
      var shorter := s[..|s| - 1];
      var r := Trim(shorter);
      assert forall k | |r| < k <= |shorter| :: s[..k] == shorter[..k];
      assert s[..|s|] == s;
      r
  }

  /** Only one prefix is clean and has no longer clean one. */
  lemma LongestCleanPrefixIsTrim(s: Text, r: Text)
    requires r <= s && Clean(r)
    requires forall k | |r| < k <= |s| :: !Clean(s[..k])
    ensures r == Trim(s)
  {
    var t := Trim(s);
    assert s[..|t|] == t && s[..|r|] == r;
  }

  lemma TrimIsIdempotent(s: Text)
    ensures Trim(Trim(s)) == Trim(s)
  {
    LongestCleanPrefixIsTrim(Trim(s), Trim(s));
  }

  const TRAILING: string := ".,!?;:'\"*_~]"

  lemma {:induction false} CountIsMultiplicity(s: Text, u: Unit)
    ensures Count(s, u) == multiset(s)[u]
  {
    if s != [] {
      CountIsMultiplicity(s[..|s| - 1], u);
      assert s == s[..|s| - 1] + [s[|s| - 1]];
    }
  }

  lemma MarksByCharacter(u: Unit)
    ensures IsTrailingMark(u) <==> exists i :: 0 <= i < |TRAILING| && TRAILING[i] as int == u
  {
    assert TRAILING[0] as int == 46 && TRAILING[1] as int == 44 && TRAILING[2] as int == 33;
    assert TRAILING[3] as int == 63 && TRAILING[4] as int == 59 && TRAILING[5] as int == 58;
    assert TRAILING[6] as int == 39 && TRAILING[7] as int == 34 && TRAILING[8] as int == 42;
    assert TRAILING[9] as int == 95 && TRAILING[10] as int == 126 && TRAILING[11] as int == 93;
  }

  /** What is left of a candidate: at its end no mark, and no closing bracket that it did not open. */
  lemma TrimmedEnd(s: Text)
    requires Trim(s) != []
    ensures var r := Trim(s);
            && (forall i | 0 <= i < |TRAILING| :: r[|r| - 1] != TRAILING[i] as int)
            && (r[|r| - 1] == ')' as int ==> multiset(r)[')' as int] <= multiset(r)['(' as int])
  {
    var r := Trim(s);
    MarksByCharacter(r[|r| - 1]);
    CountIsMultiplicity(r, CLOSE_PAREN);
    CountIsMultiplicity(r, OPEN_PAREN);
  }

  /** What is trimmed off: marks, and closing brackets that the text up to them did not open. */
  lemma TrimmedOff(s: Text, k: nat)
    requires |Trim(s)| <= k < |s|
    ensures (exists i :: 0 <= i < |TRAILING| && s[k] == TRAILING[i] as int)
            || (s[k] == ')' as int && multiset(s[..k + 1])[')' as int] > multiset(s[..k + 1])['(' as int])
  {
    assert !Clean(s[..k + 1]);
    MarksByCharacter(s[k]);
    CountIsMultiplicity(s[..k + 1], CLOSE_PAREN);
    CountIsMultiplicity(s[..k + 1], OPEN_PAREN);
  }

  lemma CountDropsLast(s: Text, end: nat, u: Unit)
    requires 0 < end <= |s|
    ensures Count(s[..end], u) == Count(s[..end - 1], u) + if s[end - 1] == u then 1 else 0
  {
    assert s[..end][..end - 1] == s[..end - 1];
  }

  /** The prefix s[..end] is not clean, so the longest clean prefix is shorter. */
  ghost predicate NothingCleanBeyond(s: Text, end: nat)
    requires end <= |s|
  {
    forall k | end < k <= |s| :: !Clean(s[..k])
  }

  /** Moves `end` back over trailing marks. Brackets are no marks, so no count changes. */
  method SkipMarks(s: Text, start: nat) returns (end: nat)
    requires start <= |s| && NothingCleanBeyond(s, start)
    ensures end <= start && NothingCleanBeyond(s, end)
    ensures end > 0 ==> !IsTrailingMark(s[end - 1])
    ensures Count(s[..end], OPEN_PAREN) == Count(s[..start], OPEN_PAREN)
    ensures Count(s[..end], CLOSE_PAREN) == Count(s[..start], CLOSE_PAREN)
  {
    end := start;
    while end > 0 && IsTrailingMark(s[end - 1])
      invariant end <= start && NothingCleanBeyond(s, end)
      invariant Count(s[..end], OPEN_PAREN) == Count(s[..start], OPEN_PAREN)
      invariant Count(s[..end], CLOSE_PAREN) == Count(s[..start], CLOSE_PAREN)
    {
      CountDropsLast(s, end, OPEN_PAREN);
      CountDropsLast(s, end, CLOSE_PAREN);
      end := end - 1;
    }
  }

  method CountBrackets(candidate: Text) returns (openCount: nat, closeCount: nat)
    ensures openCount == Count(candidate, OPEN_PAREN) && closeCount == Count(candidate, CLOSE_PAREN)
  {
    openCount, closeCount := 0, 0;
    for i := 0 to |candidate|
      invariant openCount == Count(candidate[..i], OPEN_PAREN)
      invariant closeCount == Count(candidate[..i], CLOSE_PAREN)
    {
      CountDropsLast(candidate, i + 1, OPEN_PAREN);
      CountDropsLast(candidate, i + 1, CLOSE_PAREN);
      if candidate[i] == OPEN_PAREN {
        openCount := openCount + 1;
      } else if candidate[i] == CLOSE_PAREN {
        closeCount := closeCount + 1;
      }
    }
    assert candidate[..|candidate|] == candidate;
  }

  /** One pass with running bracket counts. */
  method TrimTrailing(candidate: Text) returns (r: Text)
    ensures r == Trim(candidate)
  {
    var openCount, closeCount := CountBrackets(candidate);
    assert candidate[..|candidate|] == candidate;
    var end: nat := SkipMarks(candidate, |candidate|);
    while end > 0 && candidate[end - 1] == CLOSE_PAREN && closeCount > openCount
      invariant end <= |candidate| && NothingCleanBeyond(candidate, end)
      invariant end > 0 ==> !IsTrailingMark(candidate[end - 1])
      invariant openCount == Count(candidate[..end], OPEN_PAREN)
      invariant closeCount == Count(candidate[..end], CLOSE_PAREN)
    {
      CountDropsLast(candidate, end, OPEN_PAREN);
      CountDropsLast(candidate, end, CLOSE_PAREN);
      end := end - 1;
      closeCount := closeCount - 1;
      end := SkipMarks(candidate, end);
    }
    r := candidate[..end];
    LongestCleanPrefixIsTrim(candidate, r);
  }

  // ----- Splitting -----

  function Concat(parts: seq<Part>): Text {
    if parts == [] then [] else Concat(parts[..|parts| - 1]) + parts[|parts| - 1].value
  }

  /** The link of one match, if its trimmed text is a safe URL. */
  function LinkOf(text: Text, m: Match, safe: UrlCheck): Option<Part>
    requires m.End() <= |text|
  {
    var trimmed := Trim(Candidate(text, m));
    match safe(trimmed)
    case None => None
    case Some(url) => Some(Link(trimmed, url))
  }

  /** The links of the text in order, each with the position where it starts. */
  function LinksOf(text: Text, matches: seq<Match>, safe: UrlCheck): seq<(nat, Part)>
    requires forall i | 0 <= i < |matches| :: matches[i].End() <= |text|
  {
    if matches == [] then []
    else
      var rest := LinksOf(text, matches[..|matches| - 1], safe);
      var m := matches[|matches| - 1];
      match LinkOf(text, m, safe)
      case None => rest
      case Some(link) => rest + [(m.start, link)]
  }

  /** The links among the parts, each with the length of the text before it. */
  function Located(parts: seq<Part>): seq<(nat, Part)> {
    if parts == [] then []
    else
      var init, last := parts[..|parts| - 1], parts[|parts| - 1];
      Located(init) + if last.Link? then [(|Concat(init)|, last)] else []
  }

  lemma ConcatSnoc(parts: seq<Part>, p: Part)
    ensures Concat(parts + [p]) == Concat(parts) + p.value
    ensures Located(parts + [p]) == Located(parts) + if p.Link? then [(|Concat(parts)|, p)] else []
  {
    assert (parts + [p])[..|parts|] == parts;
  }

  /** No part is empty; a link is clean, safe and free of backticks. */
  predicate Sound(p: Part, safe: UrlCheck) {
    && p.value != []
    && (p.Link? ==> Clean(p.value) && safe(p.value) == Some(p.url) && BACKTICK !in p.value)
  }

  ghost predicate AllSound(parts: seq<Part>, safe: UrlCheck) {
    forall i | 0 <= i < |parts| :: Sound(parts[i], safe)
  }

  lemma LinkIsSound(text: Text, matches: seq<Match>, i: nat, safe: UrlCheck)
    requires ValidMatches(text, matches) && i < |matches|
    ensures LinkOf(text, matches[i], safe).Some? ==> Sound(LinkOf(text, matches[i], safe).value, safe)
  {
    var m := matches[i];
    var trimmed := Trim(Candidate(text, m));
    forall k | 0 <= k < |trimmed| ensures trimmed[k] != BACKTICK {
      assert trimmed[k] == text[m.start + k];
    }
  }

  lemma LinksOfSnoc(text: Text, matches: seq<Match>, i: nat, safe: UrlCheck)
    requires forall j | 0 <= j < |matches| :: matches[j].End() <= |text|
    requires i < |matches|
    ensures LinksOf(text, matches[..i + 1], safe) ==
            LinksOf(text, matches[..i], safe) +
            match LinkOf(text, matches[i], safe)
            case None => []
            case Some(link) => [(matches[i].start, link)]
  {
    assert matches[..i + 1][..i] == matches[..i];
  }

  /** The match is a link: trimmed, it is a safe URL. */
  predicate IsLinkOf(text: Text, m: Match, safe: UrlCheck, link: (nat, Part))
    requires m.End() <= |text|
  {
    var trimmed := Trim(text[m.start..m.End()]);
    safe(trimmed).Some? && link == (m.start, Link(trimmed, safe(trimmed).value))
  }

  ghost predicate IsSomeLink(text: Text, matches: seq<Match>, safe: UrlCheck, link: (nat, Part))
    requires ValidMatches(text, matches)
  {
    exists i :: 0 <= i < |matches| && IsLinkOf(text, matches[i], safe, link)
  }

  /** The links of a text are those of its matches, one for each that is safe. */
  lemma {:induction false} LinksAreTheSafeMatches(text: Text, matches: seq<Match>, safe: UrlCheck, link: (nat, Part))
    requires ValidMatches(text, matches)
    ensures link in LinksOf(text, matches, safe) <==> IsSomeLink(text, matches, safe, link)
  {
    if matches != [] {
      var n := |matches| - 1;
      LinksAreTheSafeMatches(text, matches[..n], safe, link);
      LinksOfSnoc(text, matches, n, safe);
      assert matches[..n + 1] == matches;
      if i :| 0 <= i < |matches| && IsLinkOf(text, matches[i], safe, link) {
        assert i < n ==> IsLinkOf(text, matches[..n][i], safe, link);
      }
      if i :| 0 <= i < n && IsLinkOf(text, matches[..n][i], safe, link) {
        assert IsLinkOf(text, matches[i], safe, link);
      }
    }
  }

  lemma LinkEndsInItsMatch(text: Text, matches: seq<Match>, safe: UrlCheck, link: (nat, Part), to: nat)
    requires ValidMatches(text, matches) && link in LinksOf(text, matches, safe)
    requires forall i | 0 <= i < |matches| :: matches[i].End() <= to
    ensures link.0 + |link.1.value| <= to
  {
    LinksAreTheSafeMatches(text, matches, safe, link);
  }

  /** From left to right, none over another. */
  lemma {:induction false} LinksGoRight(text: Text, matches: seq<Match>, safe: UrlCheck)
    requires ValidMatches(text, matches)
    ensures var links := LinksOf(text, matches, safe);
            forall a, b | 0 <= a < b < |links| :: links[a].0 + |links[a].1.value| <= links[b].0
  {
    if matches != [] {
      var n := |matches| - 1;
      var links := LinksOf(text, matches[..n], safe);
      LinksGoRight(text, matches[..n], safe);
      LinksOfSnoc(text, matches, n, safe);
      assert matches[..n + 1] == matches;
      forall a | 0 <= a < |links| ensures links[a].0 + |links[a].1.value| <= matches[n].start {
        LinkEndsInItsMatch(text, matches[..n], safe, links[a], matches[n].start);
      }
    }
  }

  /** Between two links, and at either end, there is at most one part of plain text. */
  ghost predicate IsTight(parts: seq<Part>) {
    forall i | 0 <= i < |parts| - 1 :: parts[i].Link? || parts[i + 1].Link?
  }

  predicate EndsInLink(parts: seq<Part>) { parts == [] || parts[|parts| - 1].Link? }

  /** Handles one match: the text before it and the link, or nothing when the trimmed text is no safe URL. */
  method AddMatch(text: Text, matches: seq<Match>, i: nat, safe: UrlCheck, before: seq<Part>, cursor: nat)
      returns (parts: seq<Part>, end: nat)
    requires ValidMatches(text, matches) && i < |matches| && cursor <= matches[i].start
    requires Concat(before) == text[..cursor] && AllSound(before, safe) && IsTight(before) && EndsInLink(before)
    ensures cursor <= end <= matches[i].End()
    ensures Concat(parts) == text[..end] && AllSound(parts, safe) && IsTight(parts) && EndsInLink(parts)
    ensures Located(parts) == Located(before) +
                              match LinkOf(text, matches[i], safe)
                              case None => []
                              case Some(link) => [(matches[i].start, link)]
  {
    var m := matches[i];
    LinkIsSound(text, matches, i, safe);
    var trimmed := TrimTrailing(Candidate(text, m));
    var url := safe(trimmed);
    if url.None? {
      return before, cursor;
    }
    parts := before;
    if m.start > cursor {
      parts := Push(text, parts, cursor, m.start, Plain(text[cursor..m.start]), safe);
    }
    end := m.start + |trimmed|;
    parts := Push(text, parts, m.start, end, Link(trimmed, url.value), safe);
  }

  /**
   * The parts partition the text, their links are exactly the safe trimmed matches, in place, and what stands
   * between two links is one part.
   */
  method SplitMessageLinks(text: Text, matches: seq<Match>, safe: UrlCheck) returns (parts: seq<Part>)
    requires ValidMatches(text, matches)
    ensures Concat(parts) == text
    ensures Located(parts) == LinksOf(text, matches, safe)
    ensures AllSound(parts, safe) && IsTight(parts)
  {
    parts := [];
    var cursor: nat := 0;
    for i := 0 to |matches|
      invariant cursor <= |text|
      invariant forall j | i <= j < |matches| :: cursor <= matches[j].start
      invariant Concat(parts) == text[..cursor]
      invariant Located(parts) == LinksOf(text, matches[..i], safe)
      invariant AllSound(parts, safe) && IsTight(parts) && EndsInLink(parts)
    {
      LinksOfSnoc(text, matches, i, safe);
      parts, cursor := AddMatch(text, matches, i, safe, parts, cursor);
    }
    assert matches[..|matches|] == matches;
    if cursor < |text| {
      parts := Push(text, parts, cursor, |text|, Plain(text[cursor..]), safe);
    }
  }

  /** Appends the part that covers text[from..to]. */
  method Push(text: Text, parts: seq<Part>, from: nat, to: nat, p: Part, safe: UrlCheck) returns (r: seq<Part>)
    requires from < to <= |text| && p.value == text[from..to]
    requires Concat(parts) == text[..from] && AllSound(parts, safe) && Sound(p, safe)
    requires IsTight(parts) && (p.Link? || EndsInLink(parts))
    ensures Concat(r) == text[..to] && AllSound(r, safe)
    ensures IsTight(r) && (p.Link? ==> EndsInLink(r))
    ensures Located(r) == Located(parts) + if p.Link? then [(from, p)] else []
  {
    ConcatSnoc(parts, p);
    r := parts + [p];
    assert text[..from] + text[from..to] == text[..to];
  }
}
