/**
 * The unread counts of the WhatsApp client (frontend/app/services/whatsapp.js): chat lists that arrive out
 * of order against live pushes. Each chat's count is a last-writer-wins register, where a list counts
 * from when its ticket was taken and a push from when it arrived.
 */
module UnreadCounts {
  import opened Options

  type ChatId = nat
  type Text = seq<nat>

  /** What the server says about a chat: the count and the last message read. */
  datatype Reading = Reading(unreadCount: int, lastReadMessageId: Option<Text>)
  datatype Entry = Entry(reading: Reading, chatName: Option<Text>)
  datatype ChatRow = ChatRow(chatId: ChatId, unreadCount: Option<int>, lastReadMessageId: Option<Text>, chatName: Option<Text>)

  datatype Ticket = Ticket(number: nat, since: nat)

  datatype Counts = Counts(unread: map<ChatId, Entry>, seedSeq: nat, appliedSeedSeq: nat, unreadWrites: nat,
                           live: map<ChatId, nat>)

  function EntryOf(row: ChatRow): Entry {
    Entry(Reading(row.unreadCount.GetOr(0), row.lastReadMessageId), row.chatName)
  }

  /** A chat listed twice counts as listed last. */
  function Listed(chats: seq<ChatRow>): map<ChatId, Entry> {
    if chats == [] then map[]
    else Listed(chats[..|chats| - 1])[chats[|chats| - 1].chatId := EntryOf(chats[|chats| - 1])]
  }

  /** The list's last row for the chat. */
  ghost predicate IsLastRow(chats: seq<ChatRow>, c: ChatId, i: int) {
    0 <= i < |chats| && chats[i].chatId == c && forall j | i < j < |chats| :: chats[j].chatId != c
  }

  /** A chat is listed when it has a row, and shows the last one: a missing count reads as nothing unread. */
  lemma {:induction false} ListShowsLastRows(chats: seq<ChatRow>, c: ChatId)
    ensures c in Listed(chats) <==> exists i :: IsLastRow(chats, c, i)
    ensures forall i | IsLastRow(chats, c, i) ::
              var shown, row := Listed(chats)[c], chats[i];
              && shown.reading.unreadCount == (if row.unreadCount.Some? then row.unreadCount.value else 0)
              && shown.reading.lastReadMessageId == row.lastReadMessageId && shown.chatName == row.chatName
  {
    if chats != [] {
      var n := |chats| - 1;
      ListShowsLastRows(chats[..n], c);
      if chats[n].chatId == c {
        assert IsLastRow(chats, c, n);
      } else {
        assert forall i :: IsLastRow(chats, c, i) <==> IsLastRow(chats[..n], c, i);
      }
    }
  }

  predicate IsKept(s: Counts, since: nat, c: ChatId) { c in s.live && s.live[c] > since && c in s.unread }

  function KeptLive(s: Counts, since: nat): map<ChatId, nat> {
    map c | c in s.live && IsKept(s, since, c) :: s.live[c]
  }

  /** The list, but for the chats that a push has written since. */
  function Merged(s: Counts, since: nat, listed: map<ChatId, Entry>): map<ChatId, Entry> {
    listed + map c | c in s.live && IsKept(s, since, c) :: s.unread[c]
  }

  function Seeded(s: Counts, chats: seq<ChatRow>, ticket: Ticket): Counts {
    if ticket.number < s.appliedSeedSeq then s
    else
      s.(unread := Merged(s, ticket.since, Listed(chats)), appliedSeedSeq := ticket.number, live := KeptLive(s, ticket.since))
  }

  function Pushed(s: Counts, c: ChatId, reading: Reading): Counts {
    s.(unread := s.unread[c := Entry(reading, if c in s.unread then s.unread[c].chatName else None)],
       unreadWrites := s.unreadWrites + 1,
       live := s.live[c := s.unreadWrites + 1])
  }

  function Begun(s: Counts): Counts { s.(seedSeq := s.seedSeq + 1) }

  function TicketOf(s: Counts): Ticket { Ticket(s.seedSeq + 1, s.unreadWrites) }

  /** The user is gone: nothing read before counts any more. */
  function ClearedCounts(s: Counts): Counts {
    s.(seedSeq := s.seedSeq + 1, appliedSeedSeq := s.seedSeq + 1, live := map[], unread := map[])
  }

  /** The loop over the live writes, with `keys` to go: dropped writes are gone, kept ones are in the new map. */
  ghost predicate Merging(s: Counts, since: nat, listed: map<ChatId, Entry>, keys: set<ChatId>,
                          live: map<ChatId, nat>, next: map<ChatId, Entry>)
  {
    && keys <= s.live.Keys
    && (forall c :: c in live <==> c in keys || IsKept(s, since, c))
    && (forall c | c in live :: c in s.live && live[c] == s.live[c])
    && (forall c :: c in next <==> c in listed || (c !in keys && IsKept(s, since, c)))
    && (forall c | c in next :: next[c] == if c !in keys && IsKept(s, since, c) then s.unread[c] else listed[c])
  }

  lemma MergeStep(s: Counts, since: nat, listed: map<ChatId, Entry>, keys: set<ChatId>, live: map<ChatId, nat>,
                  next: map<ChatId, Entry>, c: ChatId)
    requires Merging(s, since, listed, keys, live, next) && c in keys
    ensures if IsKept(s, since, c) then Merging(s, since, listed, keys - {c}, live, next[c := s.unread[c]])
            else Merging(s, since, listed, keys - {c}, live - {c}, next)
  {
    var rest := keys - {c};
    forall d: ChatId ensures d in keys <==> d in rest || d == c {}
  }

  lemma MergeEnds(s: Counts, since: nat, listed: map<ChatId, Entry>, live: map<ChatId, nat>, next: map<ChatId, Entry>)
    requires Merging(s, since, listed, {}, live, next)
    ensures live == KeptLive(s, since) && next == Merged(s, since, listed)
  {
  }

  class UnreadMap {
    var unread: map<ChatId, Entry>
    var seedSeq: nat
    var appliedSeedSeq: nat
    var unreadWrites: nat
    var liveUnreadWrites: map<ChatId, nat>

    function Now(): Counts
      reads this
    {
      Counts(unread, seedSeq, appliedSeedSeq, unreadWrites, liveUnreadWrites)
    }

    constructor ()
      ensures Now() == Counts(map[], 0, 0, 0, map[])
    {
      unread, liveUnreadWrites := map[], map[];
      seedSeq, appliedSeedSeq, unreadWrites := 0, 0, 0;
    }

    /** Taken before the request. */
    method BeginUnreadSeed() returns (ticket: Ticket)
      modifies this
      ensures Now() == Begun(old(Now())) && ticket == TicketOf(old(Now()))
    {
      seedSeq := seedSeq + 1;
      ticket := Ticket(seedSeq, unreadWrites);
    }

    method SeedUnread(chats: seq<ChatRow>, ticket: Ticket)
      modifies this
      ensures Now() == Seeded(old(Now()), chats, ticket)
    {
      if ticket.number < appliedSeedSeq {
        return;
      }
      var next: map<ChatId, Entry> := map[];
      var i: nat := 0;
      while i < |chats|
        invariant i <= |chats| && next == Listed(chats[..i]) && Now() == old(Now())
      {
        assert chats[..i + 1][..i] == chats[..i];
        next := next[chats[i].chatId := EntryOf(chats[i])];
        i := i + 1;
      }
      assert chats[..i] == chats;
      next := KeepLive(next, ticket.since);
      appliedSeedSeq := ticket.number;
      unread := next;
    }

    /** The loop over the live writes: newer ones stay, the others are forgotten. */
    method KeepLive(listed: map<ChatId, Entry>, since: nat) returns (next: map<ChatId, Entry>)
      modifies this`liveUnreadWrites
      ensures next == Merged(old(Now()), since, listed) && liveUnreadWrites == KeptLive(old(Now()), since)
    {
      next := listed;
      var keys := liveUnreadWrites.Keys;
      ghost var before := Now();
      while keys != {}
        invariant Now() == before.(live := liveUnreadWrites)
        invariant Merging(before, since, listed, keys, liveUnreadWrites, next)
        decreases |keys|
      {
        var c: ChatId :| c in keys;
        MergeStep(before, since, listed, keys, liveUnreadWrites, next, c);
        if liveUnreadWrites[c] > since && c in unread {
          next := next[c := unread[c]];
        } else {
          liveUnreadWrites := liveUnreadWrites - {c};
        }
        keys := keys - {c};
      }
      MergeEnds(before, since, listed, liveUnreadWrites, next);
    }

    method ApplyUnread(c: ChatId, reading: Reading)
      modifies this
      ensures Now() == Pushed(old(Now()), c, reading)
    {
      var next := unread[c := Entry(reading, if c in unread then unread[c].chatName else None)];
      unreadWrites := unreadWrites + 1;
      liveUnreadWrites := liveUnreadWrites[c := unreadWrites];
      unread := next;
    }

    method MarkSeeded()
      modifies this
      ensures Now() == ClearedCounts(old(Now())).(unread := old(unread))
    {
      seedSeq := seedSeq + 1;
      appliedSeedSeq := seedSeq;
      liveUnreadWrites := map[];
    }

    method ClearUserState()
      modifies this
      ensures Now() == ClearedCounts(old(Now()))
    {
      MarkSeeded();
      if |unread| > 0 {
        unread := map[];
      }
    }
  }

  // ----- Runs -----

  datatype Event =
    | BeginSeed
    | SeedArrives(number: nat, chats: seq<ChatRow>)
    | PushArrives(chatId: ChatId, reading: Reading)
    | UserCleared

  /** A value for all chats or for one, at the time it stands for. */
  datatype Write =
    | ForAll(at: nat, values: map<ChatId, Entry>)
    | ForOne(at: nat, chatId: ChatId, reading: Reading)

  predicate Covers(w: Write, c: ChatId) { w.ForAll? || w.chatId == c }

  function ValueFor(w: Write, c: ChatId): Option<Reading>
    requires Covers(w, c)
  {
    if w.ForOne? then Some(w.reading)
    else if c in w.values then Some(w.values[c].reading)
    else None
  }

  datatype InFlight = InFlight(ticket: Ticket, at: nat)

  /** The client with its requests under way, and everything that has arrived. */
  datatype World = World(counts: Counts, clock: nat, inFlight: map<nat, InFlight>, log: seq<Write>)

  const World0: World := World(Counts(map[], 0, 0, 0, map[]), 0, map[], [ForAll(0, map[])])

  predicate Enabled(w: World, e: Event) { e.SeedArrives? ==> e.number in w.inFlight }

  function Next(w: World, e: Event): World
    requires Enabled(w, e)
  {
    var now := w.clock + 1;
    match e
    case BeginSeed =>
      World(Begun(w.counts), now, w.inFlight[TicketOf(w.counts).number := InFlight(TicketOf(w.counts), now)], w.log)
    case SeedArrives(number, chats) =>
      World(Seeded(w.counts, chats, w.inFlight[number].ticket), now, w.inFlight - {number},
            w.log + [ForAll(w.inFlight[number].at, Listed(chats))])
    case PushArrives(c, reading) =>
      World(Pushed(w.counts, c, reading), now, w.inFlight, w.log + [ForOne(now, c, reading)])
    case UserCleared =>
      World(ClearedCounts(w.counts), now, w.inFlight, w.log + [ForAll(now, map[])])
  }

  ghost predicate IsRun(worlds: seq<World>, events: seq<Event>) {
    && |worlds| == |events| + 1 && worlds[0] == World0
    && forall i | 0 <= i < |events| :: Enabled(worlds[i], events[i]) && worlds[i + 1] == Next(worlds[i], events[i])
  }

  function ReadingOf(s: Counts, c: ChatId): Option<Reading> {
    if c in s.unread then Some(s.unread[c].reading) else None
  }

  /** The log's `i`-th write is the newest that covers the chat. */
  ghost predicate IsNewest(log: seq<Write>, c: ChatId, i: nat) {
    && i < |log| && Covers(log[i], c)
    && forall j | 0 <= j < |log| && j != i && Covers(log[j], c) :: log[j].at < log[i].at
  }

  // ----- The invariant -----

  /** The newest list applied, and the newest push of each chat with its write number. */
  datatype Trace = Trace(seedAt: nat, seed: map<ChatId, Entry>, pushes: map<ChatId, Push>)
  datatype Push = Push(at: nat, write: nat, reading: Reading)

  function Top(t: Trace, c: ChatId): nat {
    if c in t.pushes && t.pushes[c].at > t.seedAt then t.pushes[c].at else t.seedAt
  }

  function TopValue(t: Trace, c: ChatId): Option<Reading> {
    if c in t.pushes && t.pushes[c].at > t.seedAt then Some(t.pushes[c].reading)
    else if c in t.seed then Some(t.seed[c].reading)
    else None
  }

  /** Write numbers and times agree for the chat, its live mark says that a push is the newest. */
  ghost predicate ChatSound(s: Counts, t: Trace, c: ChatId) {
    && ReadingOf(s, c) == TopValue(t, c)
    && (c in s.live ==> c in t.pushes && s.live[c] == t.pushes[c].write && c in s.unread)
    && (c in t.pushes && t.pushes[c].at > t.seedAt ==> c in s.live)
    && (c in t.pushes ==> t.pushes[c].write <= s.unreadWrites)
  }

  /** Tickets are numbered in the order they were taken, and none is older or newer than it looks. */
  ghost predicate TicketsSound(w: World, t: Trace) {
    && w.counts.appliedSeedSeq <= w.counts.seedSeq
    && (forall n | n in w.inFlight ::
          var f := w.inFlight[n];
          && f.ticket.number == n && 0 < n <= w.counts.seedSeq && f.at <= w.clock
          && f.ticket.since <= w.counts.unreadWrites
          && n != w.counts.appliedSeedSeq && f.at != t.seedAt
          && (n < w.counts.appliedSeedSeq <==> f.at < t.seedAt))
    && (forall m, n | m in w.inFlight && n in w.inFlight && m < n :: w.inFlight[m].at < w.inFlight[n].at)
  }

  ghost predicate PushesSound(w: World, t: Trace) {
    forall c | c in t.pushes ::
      && t.pushes[c].at <= w.clock
      && forall n | n in w.inFlight ::
           t.pushes[c].at != w.inFlight[n].at
           && (t.pushes[c].write > w.inFlight[n].ticket.since <==> t.pushes[c].at > w.inFlight[n].at)
  }

  /** The newest write for the chat is the one that the trace remembers. */
  ghost predicate LogSound(w: World, t: Trace, c: ChatId) {
    && (exists i: nat :: IsNewest(w.log, c, i) && w.log[i].at == Top(t, c) && ValueFor(w.log[i], c) == TopValue(t, c))
    && forall n | n in w.inFlight :: w.inFlight[n].at != Top(t, c)
  }

  ghost predicate LogTimes(w: World) {
    forall i | 0 <= i < |w.log| :: w.log[i].at <= w.clock && forall n | n in w.inFlight :: w.inFlight[n].at != w.log[i].at
  }

  ghost predicate Sound(w: World, t: Trace) {
    && t.seedAt <= w.clock
    && TicketsSound(w, t) && PushesSound(w, t) && LogTimes(w)
    && forall c: ChatId :: ChatSound(w.counts, t, c) && LogSound(w, t, c)
  }

  function NextTrace(w: World, t: Trace, e: Event): Trace
    requires Enabled(w, e)
  {
    match e
    case BeginSeed => t
    case SeedArrives(n, chats) =>
      if n < w.counts.appliedSeedSeq then t else t.(seedAt := w.inFlight[n].at, seed := Listed(chats))
    case PushArrives(c, reading) => t.(pushes := t.pushes[c := Push(w.clock + 1, w.counts.unreadWrites + 1, reading)])
    case UserCleared => t.(seedAt := w.clock + 1, seed := map[])
  }

  // ----- The client's half of the invariant -----

  lemma SeedChatSound(w: World, t: Trace, e: Event, c: ChatId)
    requires Sound(w, t) && e.SeedArrives? && Enabled(w, e)
    ensures ChatSound(Next(w, e).counts, NextTrace(w, t, e), c)
  {
    assert ChatSound(w.counts, t, c);
    var f := w.inFlight[e.number];
    if e.number >= w.counts.appliedSeedSeq {
      assert f.at > t.seedAt;
      var s := w.counts;
      assert IsKept(s, f.ticket.since, c) <==> c in t.pushes && t.pushes[c].at > f.at;
    }
  }

  lemma PushChatSound(w: World, t: Trace, e: Event, c: ChatId)
    requires Sound(w, t) && e.PushArrives? && Enabled(w, e)
    ensures ChatSound(Next(w, e).counts, NextTrace(w, t, e), c)
  {
    assert ChatSound(w.counts, t, c);
  }

  lemma NextChatSound(w: World, t: Trace, e: Event, c: ChatId)
    requires Sound(w, t) && Enabled(w, e)
    ensures ChatSound(Next(w, e).counts, NextTrace(w, t, e), c)
  {
    assert ChatSound(w.counts, t, c);
    match e
    case SeedArrives(_, _) => SeedChatSound(w, t, e, c);
    case PushArrives(_, _) => PushChatSound(w, t, e, c);
    case _ =>
  }

  // ----- The log's half -----

  lemma AppendOlder(log: seq<Write>, w: Write, c: ChatId, i: nat)
    requires IsNewest(log, c, i) && (Covers(w, c) ==> w.at < log[i].at)
    ensures IsNewest(log + [w], c, i) && (log + [w])[i] == log[i]
  {
  }

  lemma AppendNewer(log: seq<Write>, w: Write, c: ChatId, i: nat)
    requires IsNewest(log, c, i) && Covers(w, c) && log[i].at < w.at
    ensures IsNewest(log + [w], c, |log|) && (log + [w])[|log|] == w
  {
  }

  /** What an arrival is worth to the chat: the newer of it and the newest so far. */
  lemma NextTop(w: World, t: Trace, e: Event, c: ChatId)
    requires Sound(w, t) && Enabled(w, e) && !e.BeginSeed?
    ensures var last, v := Next(w, e).log[|w.log|], NextTrace(w, t, e);
            if Covers(last, c) && Top(t, c) < last.at
            then Top(v, c) == last.at && TopValue(v, c) == ValueFor(last, c)
            else Top(v, c) == Top(t, c) && TopValue(v, c) == TopValue(t, c) && (Covers(last, c) ==> last.at < Top(t, c))
  {
    assert LogSound(w, t, c);
    assert ChatSound(w.counts, t, c);
  }

  lemma NextAwaited(w: World, t: Trace, e: Event, c: ChatId)
    requires Sound(w, t) && Enabled(w, e)
    ensures forall n | n in Next(w, e).inFlight :: Next(w, e).inFlight[n].at != Top(NextTrace(w, t, e), c)
  {
    assert LogSound(w, t, c);
  }

  lemma NextLogSound(w: World, t: Trace, e: Event, c: ChatId)
    requires Sound(w, t) && Enabled(w, e)
    ensures LogSound(Next(w, e), NextTrace(w, t, e), c)
  {
    assert LogSound(w, t, c);
    NextAwaited(w, t, e, c);
    var i: nat :| IsNewest(w.log, c, i) && w.log[i].at == Top(t, c) && ValueFor(w.log[i], c) == TopValue(t, c);
    var u := Next(w, e);
    if e.BeginSeed? {
      assert IsNewest(u.log, c, i);
    } else {
      var last := u.log[|w.log|];
      NextTop(w, t, e, c);
      assert u.log == w.log + [last];
      if Covers(last, c) && Top(t, c) < last.at {
        AppendNewer(w.log, last, c, i);
        assert IsNewest(u.log, c, |w.log|);
      } else {
        AppendOlder(w.log, last, c, i);
        assert IsNewest(u.log, c, i);
      }
    }
  }

  lemma NextTicketsSound(w: World, t: Trace, e: Event)
    requires Sound(w, t) && Enabled(w, e)
    ensures TicketsSound(Next(w, e), NextTrace(w, t, e))
  {
  }

  lemma NextPushesSound(w: World, t: Trace, e: Event)
    requires Sound(w, t) && Enabled(w, e)
    ensures PushesSound(Next(w, e), NextTrace(w, t, e))
  {
    forall c | c in t.pushes ensures t.pushes[c].write <= w.counts.unreadWrites {
      assert ChatSound(w.counts, t, c);
    }
  }

  lemma NextLogTimes(w: World, t: Trace, e: Event)
    requires Sound(w, t) && Enabled(w, e)
    ensures LogTimes(Next(w, e))
  {
  }

  lemma NextIsSound(w: World, t: Trace, e: Event)
    requires Sound(w, t) && Enabled(w, e)
    ensures Sound(Next(w, e), NextTrace(w, t, e))
  {
    NextTicketsSound(w, t, e);
    NextPushesSound(w, t, e);
    NextLogTimes(w, t, e);
    forall c: ChatId
      ensures ChatSound(Next(w, e).counts, NextTrace(w, t, e), c) && LogSound(Next(w, e), NextTrace(w, t, e), c)
    {
      NextChatSound(w, t, e, c);
      NextLogSound(w, t, e, c);
    }
  }

  lemma {:induction false} RunIsSound(worlds: seq<World>, events: seq<Event>, k: nat) returns (t: Trace)
    requires IsRun(worlds, events) && k < |worlds|
    ensures Sound(worlds[k], t)
  {
    if k == 0 {
      t := Trace(0, map[], map[]);
      forall c: ChatId ensures LogSound(worlds[0], t, c) {
        assert IsNewest(worlds[0].log, c, 0);
      }
    } else {
      var before := RunIsSound(worlds, events, k - 1);
      NextIsSound(worlds[k - 1], before, events[k - 1]);
      t := NextTrace(worlds[k - 1], before, events[k - 1]);
    }
  }

  // ----- Theorems -----

  /**
   * Whatever order lists and pushes arrive in, every chat shows the newest of all that has arrived; a list
   * without the chat, like a cleared user, shows nothing.
   */
  lemma UnreadIsNewest(worlds: seq<World>, events: seq<Event>, k: nat, c: ChatId)
    requires IsRun(worlds, events) && k < |worlds|
    ensures exists i: nat :: IsNewest(worlds[k].log, c, i) && ReadingOf(worlds[k].counts, c) == ValueFor(worlds[k].log[i], c)
  {
    var t := RunIsSound(worlds, events, k);
    assert LogSound(worlds[k], t, c) && ChatSound(worlds[k].counts, t, c);
    var i: nat :| IsNewest(worlds[k].log, c, i) && worlds[k].log[i].at == Top(t, c)
                  && ValueFor(worlds[k].log[i], c) == TopValue(t, c);
  }

  // ----- Chat names, which no push carries -----

  function NameOf(s: Counts, c: ChatId): Option<Text> { if c in s.unread then s.unread[c].chatName else None }

  function NameIn(values: map<ChatId, Entry>,
                  c: ChatId): Option<Text> { if c in values then values[c].chatName else None }

  /** The list is newer than all that had arrived for the chat before it. */
  ghost predicate CameInTime(log: seq<Write>, c: ChatId, i: nat) {
    && i < |log| && log[i].ForAll?
    && forall j | 0 <= j < i && Covers(log[j], c) :: log[j].at < log[i].at
  }

  ghost predicate IsLastInTime(log: seq<Write>, c: ChatId, i: nat) {
    CameInTime(log, c, i) && forall j | i < j < |log| :: !CameInTime(log, c, j)
  }

  ghost predicate NameSound(w: World, c: ChatId) {
    exists i: nat :: IsLastInTime(w.log, c, i) && NameOf(w.counts, c) == NameIn(w.log[i].values, c)
  }

  lemma AppendKeepsEarlier(log: seq<Write>, w: Write, c: ChatId, i: nat)
    requires i < |log|
    ensures CameInTime(log + [w], c, i) <==> CameInTime(log, c, i)
  {
    assert forall j | 0 <= j <= i :: (log + [w])[j] == log[j];
  }

  /** A later arrival: the name's list stays unless a list came in time. */
  lemma LastInTimeAfter(log: seq<Write>, w: Write, c: ChatId, i: nat)
    requires IsLastInTime(log, c, i)
    ensures if CameInTime(log + [w], c, |log|) then IsLastInTime(log + [w], c, |log|) else IsLastInTime(log + [w], c, i)
  {
    AppendKeepsEarlier(log, w, c, i);
    forall j | i < j < |log| ensures !CameInTime(log + [w], c, j) {
      AppendKeepsEarlier(log, w, c, j);
    }
  }

  /** A list comes in time for the chat exactly when it is newer than the chat's newest write. */
  lemma InTimeIsNewerThanTop(w: World, t: Trace, c: ChatId, write: Write)
    requires LogSound(w, t, c) && write.ForAll?
    ensures CameInTime(w.log + [write], c, |w.log|) <==> Top(t, c) < write.at
  {
    var i: nat :| IsNewest(w.log, c, i) && w.log[i].at == Top(t, c);
    assert (w.log + [write])[i] == w.log[i];
    assert forall j | 0 <= j < |w.log| :: (w.log + [write])[j] == w.log[j];
  }

  /** The client's half: the name changes to the list's exactly when the list is newer than the chat's newest write. */
  lemma SeedNames(w: World, t: Trace, e: Event, c: ChatId)
    requires Sound(w, t) && e.SeedArrives? && Enabled(w, e)
    ensures var f := w.inFlight[e.number];
            NameOf(Next(w, e).counts, c) == if Top(t, c) < f.at then NameIn(Listed(e.chats), c) else NameOf(w.counts, c)
  {
    assert ChatSound(w.counts, t, c) && LogSound(w, t, c);
    var f := w.inFlight[e.number];
    if e.number >= w.counts.appliedSeedSeq {
      assert f.at > t.seedAt;
      var s := w.counts;
      assert IsKept(s, f.ticket.since, c) <==> c in t.pushes && t.pushes[c].at > f.at;
    }
  }

  lemma NextNameSound(w: World, t: Trace, e: Event, c: ChatId)
    requires Sound(w, t) && NameSound(w, c) && Enabled(w, e)
    ensures NameSound(Next(w, e), c)
  {
    var v := Next(w, e);
    var i: nat :| IsLastInTime(w.log, c, i) && NameOf(w.counts, c) == NameIn(w.log[i].values, c);
    if e.BeginSeed? {
      assert IsLastInTime(v.log, c, i);
    } else {
      var last := v.log[|w.log|];
      LastInTimeAfter(w.log, last, c, i);
      assert LogSound(w, t, c) && v.log == w.log + [last];
      if e.SeedArrives? {
        SeedNames(w, t, e, c);
        InTimeIsNewerThanTop(w, t, c, last);
      } else if e.UserCleared? {
        assert CameInTime(v.log, c, |w.log|);
      }
      assert IsLastInTime(v.log, c, if CameInTime(v.log, c, |w.log|) then |w.log| else i);
    }
  }

  /**
   * Whatever order lists and pushes arrive in, a chat's name is that of the last list that came in time for it,
   * newer than all that had arrived for the chat before: a push keeps the name, and so does a list that a push
   * has overtaken.
   */
  lemma {:induction false} NameIsFromTheLastListInTime(worlds: seq<World>, events: seq<Event>, k: nat, c: ChatId)
    requires IsRun(worlds, events) && k < |worlds|
    ensures exists i: nat :: IsLastInTime(worlds[k].log, c, i)
                             && NameOf(worlds[k].counts, c) == NameIn(worlds[k].log[i].values, c)
  {
    if k == 0 {
      assert IsLastInTime(worlds[0].log, c, 0);
    } else {
      NameIsFromTheLastListInTime(worlds, events, k - 1, c);
      var t := RunIsSound(worlds, events, k - 1);
      assert NameSound(worlds[k - 1], c);
      NextNameSound(worlds[k - 1], t, events[k - 1], c);
      assert NameSound(worlds[k], c);
    }
  }

  // ----- A cleared user -----

  /** The tickets taken before a clear stay numbered below the lists applied since. */
  lemma {:induction false} ClearOutdatesTickets(worlds: seq<World>, events: seq<Event>, j: nat, k: nat, n: nat)
    requires IsRun(worlds, events) && j < k < |worlds| && events[j].UserCleared? && n in worlds[j].inFlight
    ensures n < worlds[k].counts.appliedSeedSeq
  {
    assert worlds[k] == Next(worlds[k - 1], events[k - 1]);
    if k == j + 1 {
      var _ := RunIsSound(worlds, events, j);
    } else {
      var _ := RunIsSound(worlds, events, k - 1);
      ClearOutdatesTickets(worlds, events, j, k - 1, n);
    }
  }

  /** No list requested before the user was cleared ever lands. */
  lemma ClearedUserStaysCleared(worlds: seq<World>, events: seq<Event>, j: nat, k: nat)
    requires IsRun(worlds, events) && j < k < |events|
    requires events[j].UserCleared? && events[k].SeedArrives? && events[k].number in worlds[j].inFlight
    ensures worlds[k + 1].counts == worlds[k].counts
  {
    var _ := RunIsSound(worlds, events, k);
    ClearOutdatesTickets(worlds, events, j, k, events[k].number);
    assert worlds[k + 1] == Next(worlds[k], events[k]);
  }
}
