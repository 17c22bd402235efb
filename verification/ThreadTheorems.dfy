/**
 * Which live messages are lost: over any interleaving of pushes, loads, failures and stale answers, a settled
 * window that reaches the newest message has lost exactly those that a reopen of its chat dropped.
 */
module ThreadTheorems {
  import opened Options
  import opened ThreadWindow

  // ----- The server -----

  /** A chat's messages in the server's order: a message's id is its position, the entry says if it shows. */
  type Log = seq<bool>

  function Rows(log: Log, lo: nat, hi: nat): seq<Row>
    requires lo <= hi <= |log|
  {
    if lo == hi then [] else Rows(log, lo, hi - 1) + [Row(hi - 1, log[hi - 1])]
  }

  lemma {:induction false} EndsOf(log: Log, lo: nat, hi: nat)
    requires lo <= hi <= |log|
    ensures var rows := Rows(log, lo, hi);
            if lo == hi then rows == [] else rows != [] && FirstId(rows) == Some(lo) && LastId(rows) == Some(hi - 1)
  {
    if lo < hi {
      EndsOf(log, lo, hi - 1);
    }
  }

  lemma PageSnoc(init: seq<Row>, last: Row, m: MessageId)
    ensures m in PageMessages(init + [last]) <==> m in PageMessages(init) || (last.shown && m == last.id)
  {
    assert (init + [last])[..|init|] == init;
  }

  /** The messages of a page are its rows that show. */
  lemma {:induction false} PageHolds(log: Log, lo: nat, hi: nat, m: MessageId)
    requires lo <= hi <= |log|
    ensures m in PageMessages(Rows(log, lo, hi)) <==> lo <= m < hi && log[m]
  {
    if lo < hi {
      var init, last := Rows(log, lo, hi - 1), Row(hi - 1, log[hi - 1]);
      PageHolds(log, lo, hi - 1, m);
      PageSnoc(init, last, m);
    }
  }

  lemma {:induction false} WithoutHolds(ms: seq<MessageId>, held: seq<MessageId>, m: MessageId)
    ensures m in Without(ms, held) <==> m in ms && m !in held
  {
    if ms != [] {
      WithoutHolds(ms[..|ms| - 1], held, m);
      assert ms == ms[..|ms| - 1] + [ms[|ms| - 1]];
    }
  }

  // ----- Requests under way, and what was delivered -----

  datatype Kind = Latest | Around | Older(before: MessageId) | Newer(after: MessageId)

  /** `state` is the thread that a window load found; `stored` the length of the chat's log at the request. */
  datatype Request = Request(chat: ChatId, kind: Kind, state: Option<Thread>, stored: nat)

  /**
   * `delivered` are the new messages that show, pushed for the open chat since the window on show was asked
   * for, when the log had `asked` messages; `arriving` and `asking` are the same for the window load under way.
   * `dropped` are those of `delivered` that a reopen found parked and that have not come again since.
   */
  datatype World = World(client: Client, logs: map<ChatId, Log>, requests: map<nat, Request>,
                         delivered: set<MessageId>, asked: nat, arriving: set<MessageId>, asking: nat,
                         dropped: set<MessageId>)

  const World0: World := World(Client0, map[], map[], {}, 0, {}, 0, {})

  function LogOf(w: World, c: ChatId): Log { if c in w.logs then w.logs[c] else [] }

  function WithWindow(w: World, c: ChatId, around: bool): World {
    var client := WindowStarted(w.client, c);
    w.(client := client,
       requests := w.requests[client.requestSeq :=
         Request(c, if around then Around else Latest, ThreadOf(w.client, c), |LogOf(w, c)|)],
       delivered := if IsHeld(ThreadOf(w.client, c)) then w.delivered else {},
       dropped := if IsHeld(ThreadOf(w.client, c)) then w.dropped else {},
       arriving := {},
       asking := |LogOf(w, c)|)
  }

  function WithEdge(w: World, c: ChatId, older: bool): World {
    if !CanLoadEdge(w.client, c, older) then w
    else
      var t := w.client.threads[c];
      w.(client := EdgeStarted(w.client, c, older),
         requests := w.requests[w.client.requestSeq + 1 :=
           Request(c, if older then Older(t.oldestId.value) else Newer(t.newestId.value), None, |LogOf(w, c)|)])
  }

  datatype Event =
    | Store(chat: ChatId, shown: bool)
    | Deliver(chat: ChatId, message: MessageId, isNew: bool)
    | Select(chat: ChatId, around: bool)
    | Reopen(around: bool)
    | Reload(around: bool)
    | OweReload
    | PayOwed(around: bool)
    | JumpToLatest
    | AfterGone
    | LoadEdge(older: bool)
    | Answer(id: nat, lo: nat, hi: nat, snapshot: nat)
    | Fail(id: nat, gone: bool)
    | Leave

  /** The server answers a request from its log as it stood at some moment while the request was under way. */
  predicate HonestPage(r: Request, lo: nat, hi: nat, snapshot: nat) {
    && r.stored <= snapshot && lo <= hi <= snapshot
    && match r.kind
       case Latest => hi == snapshot && (snapshot > 0 ==> lo < hi)
       case Around => lo < hi && lo < r.stored
       case Older(before) => hi == before && (before > 0 ==> lo < hi)
       case Newer(after) => lo == after + 1 && (lo < snapshot ==> lo < hi)
  }

  function PageOf(w: World, r: Request, lo: nat, hi: nat, snapshot: nat): Page
    requires lo <= hi <= |LogOf(w, r.chat)|
  {
    Page(Rows(LogOf(w, r.chat), lo, hi), lo > 0, hi < snapshot)
  }

  predicate HasThread(s: Client) { s.currentChatId.Some? && s.currentChatId.value in s.threads }

  function Open(s: Client): Thread
    requires HasThread(s)
  {
    s.threads[s.currentChatId.value]
  }

  /**
   * What the callers check before a load. Reopen is the restore of the saved chat in setup, the only load
   * without a check; AfterGone follows in the same turn as the answer that the anchor is gone. A reload that
   * comes while the window loads is owed, and paid after a load.
   */
  predicate Enabled(w: World, e: Event) {
    var s := w.client;
    match e
    case Store(_, _) => true
    case Deliver(c, m, _) => m < |LogOf(w, c)|
    case Select(c, _) => s.currentChatId != Some(c) || c !in s.threads
    case Reopen(_) => s.currentChatId.Some?
    case Reload(_) => s.currentChatId.Some? && CanReload(s, s.currentChatId.value)
    case OweReload => HasThread(s) && Open(s).loading.WindowLoad?
    case PayOwed(_) => s.currentChatId.Some? && IsDue(s, s.currentChatId.value)
    case JumpToLatest => HasThread(s) && Open(s).hasMoreNewer
    case AfterGone => s.currentChatId.Some? && (HasThread(s) ==> Open(s).loading.NotLoading?)
    case LoadEdge(_) => s.currentChatId.Some?
    case Answer(id, lo, hi, snapshot) =>
      id in w.requests && HonestPage(w.requests[id], lo, hi, snapshot) && snapshot <= |LogOf(w, w.requests[id].chat)|
    case Fail(id, gone) => id in w.requests && (gone ==> w.requests[id].kind.Around?)
    case Leave => true
  }

  /** In the window; or older than the request for the window, and left to its upper edge, which has more to load. */
  predicate NotLost(t: Thread, asked: nat, m: MessageId) {
    m in t.messages || (t.oldestId.Some? && m < t.oldestId.value && m < asked && t.hasMore)
  }

  function Missing(ms: set<MessageId>, t: Thread, asked: nat): set<MessageId> {
    set m | m in ms && !NotLost(t, asked, m)
  }

  /**
   * What reopening the open chat drops although the window on show needs it: the parked messages, when a load
   * is replacing a window that reaches the newest message.
   */
  function DroppedBy(w: World): set<MessageId> {
    if HasThread(w.client) && Open(w.client).loading.WindowLoad? && !Open(w.client).hasMoreNewer
    then Missing((set m | m in w.client.pendingLive), Open(w.client), w.asked)
    else {}
  }

  /** The chat is opened again, before its load. */
  function Reopened(w: World): World
    requires w.client.currentChatId.Some?
  {
    w.(client := Opened(w.client, w.client.currentChatId.value), dropped := w.dropped + DroppedBy(w))
  }

  /** Older rows may bring what was dropped. */
  function StillDropped(w: World): World {
    w.(dropped := if HasThread(w.client) then Missing(w.dropped, Open(w.client), w.asked) else {})
  }

  function Delivered(w: World, c: ChatId, m: MessageId, isNew: bool): World
    requires m < |LogOf(w, c)|
  {
    var shown := LogOf(w, c)[m];
    var counts := shown && isNew && w.client.currentChatId == Some(c);
    w.(client := Ingested(w.client, c, m, shown, isNew),
       delivered := if counts then w.delivered + {m} else w.delivered,
       arriving := if counts then w.arriving + {m} else w.arriving,
       dropped := if counts then w.dropped - {m} else w.dropped)
  }

  /** The owed reload, if there is a window to reload. */
  function Paid(w: World, c: ChatId, around: bool): World {
    var v := w.(client := OwedPaid(w.client, c));
    if CanReload(w.client, c) then WithWindow(v, c, around) else v
  }

  function Answered(w: World, id: nat, lo: nat, hi: nat, snapshot: nat): World
    requires id in w.requests && lo <= hi <= |LogOf(w, w.requests[id].chat)|
  {
    var r := w.requests[id];
    var page := PageOf(w, r, lo, hi, snapshot);
    var rest := w.(requests := w.requests - {id});
    match r.kind
    case Older(_) => StillDropped(rest.(client := EdgeAnswered(w.client, r.chat, id, true, page)))
    case Newer(_) => rest.(client := EdgeAnswered(w.client, r.chat, id, false, page))
    case _ =>
      rest.(client := WindowAnswered(w.client, r.chat, id, r.kind.Around?, page),
            delivered := if IsRequest(w.client, r.chat, id) then w.arriving else w.delivered,
            asked := if IsRequest(w.client, r.chat, id) then w.asking else w.asked,
            dropped := if IsRequest(w.client, r.chat, id) then {} else w.dropped)
  }

  function Failed(w: World, id: nat, gone: bool): World
    requires id in w.requests
  {
    var r := w.requests[id];
    var rest := w.(requests := w.requests - {id});
    if r.kind.Older? || r.kind.Newer? then rest.(client := EdgeFailed(w.client, r.chat, id, r.kind.Older?))
    else rest.(client := WindowFailed(w.client, r.chat, id, r.state, gone))
  }

  function Next(w: World, e: Event): World
    requires Enabled(w, e)
  {
    match e
    case Store(c, shown) => w.(logs := w.logs[c := LogOf(w, c) + [shown]])
    case Deliver(c, m, isNew) => Delivered(w, c, m, isNew)
    case Select(c, around) => WithWindow(w.(client := Opened(w.client, c), delivered := {}, dropped := {}), c, around)
    case Reopen(around) => WithWindow(Reopened(w), w.client.currentChatId.value, around)
    case Reload(around) => WithWindow(w, w.client.currentChatId.value, around)
    case OweReload => w.(client := ReloadOwed(w.client, w.client.currentChatId.value))
    case PayOwed(around) => Paid(w, w.client.currentChatId.value, around)
    case JumpToLatest => WithWindow(w, w.client.currentChatId.value, false)
    case AfterGone => WithWindow(w, w.client.currentChatId.value, false)
    case LoadEdge(older) => WithEdge(w, w.client.currentChatId.value, older)
    case Answer(id, lo, hi, snapshot) => Answered(w, id, lo, hi, snapshot)
    case Fail(id, gone) => Failed(w, id, gone)
    case Leave => w.(client := Left(w.client), delivered := {}, arriving := {}, dropped := {})
  }

  ghost predicate IsRun(worlds: seq<World>, events: seq<Event>) {
    && |worlds| == |events| + 1 && worlds[0] == World0
    && forall i | 0 <= i < |events| :: Enabled(worlds[i], events[i]) && worlds[i + 1] == Next(worlds[i], events[i])
  }

  // ----- The invariant -----

  /** Not lost, or beyond the window's newest message when there is more to load. */
  predicate Held(t: Thread, asked: nat, m: MessageId) {
    || NotLost(t, asked, m)
    || (t.hasMoreNewer && t.newestId.Some? && t.newestId.value < m)
  }

  /** A window with more to load has no gap between its ends. */
  ghost predicate NoGap(t: Thread, log: Log, asked: nat) {
    t.hasMoreNewer ==>
      && t.oldestId.Some? && t.newestId.Some? && t.oldestId.value < asked
      && forall m | t.oldestId.value <= m <= t.newestId.value && m < |log| && log[m] :: m in t.messages
  }

  /** There is more to load above exactly when the window does not begin with the chat's first message. */
  predicate TopSound(t: Thread) { t.oldestId.Some? ==> (t.hasMore <==> t.oldestId.value > 0) }

  ghost predicate InLog(t: Thread, pending: seq<MessageId>, log: Log) {
    && (forall m | m in t.messages :: m < |log|)
    && (forall m | m in pending :: m < |log| && log[m])
    && (t.newestId.Some? ==> t.newestId.value < |log|)
    && (t.oldestId.Some? ==> t.oldestId.value <= |log|)
  }

  ghost predicate DeliveredSound(t: Thread, pending: seq<MessageId>, log: Log, delivered: set<MessageId>,
                                 asked: nat, dropped: set<MessageId>)
  {
    forall m | m in delivered ::
      m < |log| && log[m] && (Held(t, asked, m) || (IsParking(t) && m in pending) || m in dropped)
  }

  /** What was dropped is missing from the window, which reaches the newest message. */
  ghost predicate DroppedSound(t: Thread, pending: seq<MessageId>, delivered: set<MessageId>, asked: nat,
                               dropped: set<MessageId>)
  {
    && (dropped != {} ==> !t.hasMoreNewer)
    && forall m | m in dropped :: m in delivered && !NotLost(t, asked, m) && m !in pending
  }

  predicate SameWindow(a: Thread, b: Thread) {
    && a.messages == b.messages && a.oldestId == b.oldestId && a.newestId == b.newestId
    && a.hasMore == b.hasMore && a.hasMoreNewer == b.hasMoreNewer
  }

  /** The request that the thread waits for. */
  ghost predicate RequestSound(w: World, c: ChatId, t: Thread, r: Request) {
    && r.chat == c && r.stored <= |LogOf(w, c)|
    && match r.kind
       case Older(before) => t.loading.OlderLoad? && t.oldestId == Some(before) && before <= |LogOf(w, c)|
       case Newer(after) =>
         && t.loading.NewerLoad? && t.hasMoreNewer && t.newestId == Some(after) && after < r.stored
         && (forall m | m in t.messages :: m < r.stored)
         && forall m | m in w.delivered :: m < r.stored || m in w.client.pendingLive
       case _ =>
         && t.loading.WindowLoad? && w.asking == r.stored
         && (r.state.Some? ==> SameWindow(r.state.value, t))
         && (forall m | m in t.messages :: m < r.stored)
         && (forall m | m in w.arriving :: m < |LogOf(w, c)| && LogOf(w, c)[m] && (m < r.stored || m in w.client.pendingLive))
  }

  ghost predicate ThreadSound(w: World, c: ChatId) {
    c in w.client.threads ==>
      var t := w.client.threads[c];
      && NoGap(t, LogOf(w, c), w.asked) && TopSound(t) && InLog(t, w.client.pendingLive, LogOf(w, c))
      && DeliveredSound(t, w.client.pendingLive, LogOf(w, c), w.delivered, w.asked, w.dropped)
      && DroppedSound(t, w.client.pendingLive, w.delivered, w.asked, w.dropped)
      && t.requestId <= w.client.requestSeq && (t.loading.NewerLoad? ==> t.hasMoreNewer)
      && (IsParking(t) ==> forall m | m in w.client.pendingLive :: m in w.delivered)
      && (t.requestId in w.requests ==> RequestSound(w, c, t, w.requests[t.requestId]))
  }

  ghost predicate Sound(w: World) {
    && (forall c | c in w.client.threads :: w.client.currentChatId == Some(c))
    && (forall id | id in w.requests :: id <= w.client.requestSeq)
    && (w.client.currentChatId.Some? ==> ThreadSound(w, w.client.currentChatId.value))
  }

  // ----- Each kind of event -----

  lemma StoreIsSound(w: World, c: ChatId, shown: bool)
    requires Sound(w)
    ensures Sound(Next(w, Store(c, shown)))
  {
    var v := Next(w, Store(c, shown));
    if HasThread(w.client) {
      var d := w.client.currentChatId.value;
      assert ThreadSound(w, d);
      assert forall i | 0 <= i < |LogOf(w, d)| :: LogOf(v, d)[i] == LogOf(w, d)[i];
    }
  }

  /** The message is in the window already, or the window has more to load and will come to it. */
  lemma IgnoredIsSound(w: World, m: MessageId)
    requires Sound(w) && HasThread(w.client) && m < |LogOf(w, w.client.currentChatId.value)|
    requires LogOf(w, w.client.currentChatId.value)[m]
    requires m in Open(w.client).messages || (!IsParking(Open(w.client)) && Open(w.client).hasMoreNewer)
    ensures Sound(w.(delivered := w.delivered + {m}, arriving := w.arriving + {m}, dropped := w.dropped - {m}))
  {
    assert ThreadSound(w, w.client.currentChatId.value);
  }

  lemma ParkedIsSound(w: World, m: MessageId)
    requires Sound(w) && HasThread(w.client) && m < |LogOf(w, w.client.currentChatId.value)|
    requires LogOf(w, w.client.currentChatId.value)[m] && IsParking(Open(w.client))
    ensures Sound(w.(client := w.client.(pendingLive := w.client.pendingLive + [m]),
                     delivered := w.delivered + {m}, arriving := w.arriving + {m}, dropped := w.dropped - {m}))
  {
    assert ThreadSound(w, w.client.currentChatId.value);
  }

  lemma AppendedIsSound(w: World, m: MessageId)
    requires Sound(w) && HasThread(w.client) && m < |LogOf(w, w.client.currentChatId.value)|
    requires LogOf(w, w.client.currentChatId.value)[m] && !IsParking(Open(w.client)) && !Open(w.client).hasMoreNewer
    ensures var t := Open(w.client).(messages := Open(w.client).messages + [m], newestId := Some(m));
            Sound(w.(client := w.client.(threads := w.client.threads[w.client.currentChatId.value := t]),
                     delivered := w.delivered + {m}, arriving := w.arriving + {m}, dropped := w.dropped - {m}))
  {
    assert ThreadSound(w, w.client.currentChatId.value);
  }

  lemma DeliverIsSound(w: World, c: ChatId, m: MessageId, isNew: bool)
    requires Sound(w) && Enabled(w, Deliver(c, m, isNew))
    ensures Sound(Next(w, Deliver(c, m, isNew)))
  {
    if LogOf(w, c)[m] && isNew && HasThread(w.client) && w.client.currentChatId == Some(c) {
      var t := Open(w.client);
      if m in t.messages || (!IsParking(t) && t.hasMoreNewer) {
        IgnoredIsSound(w, m);
      } else if IsParking(t) {
        ParkedIsSound(w, m);
      } else {
        AppendedIsSound(w, m);
      }
    } else if HasThread(w.client) {
      assert ThreadSound(w, w.client.currentChatId.value);
    }
  }

  /** A window with more to load and no gap holds every message that shows. */
  lemma GapFreeHolds(t: Thread, log: Log, asked: nat, m: MessageId)
    requires NoGap(t, log, asked) && TopSound(t) && t.hasMoreNewer && m < |log| && log[m]
    ensures Held(t, asked, m)
  {
  }

  /** The window that a load would replace keeps what was delivered without the parked messages. */
  ghost predicate Startable(w: World, c: ChatId) {
    && w.client.currentChatId == Some(c)
    && (forall d | d in w.client.threads :: d == c)
    && (forall id | id in w.requests :: id <= w.client.requestSeq)
    && (c in w.client.threads ==>
          var t := w.client.threads[c];
          && NoGap(t, LogOf(w, c), w.asked) && TopSound(t) && InLog(t, [], LogOf(w, c))
          && (t.messages != [] ==>
                && DeliveredSound(t, [], LogOf(w, c), w.delivered, w.asked, w.dropped)
                && DroppedSound(t, [], w.delivered, w.asked, w.dropped)))
  }

  lemma StartIsSound(w: World, c: ChatId, around: bool)
    requires Startable(w, c)
    ensures Sound(WithWindow(w, c, around))
  {
  }

  /** A load over a settled window may start, and over one with more to load. */
  lemma SettledIsStartable(w: World, c: ChatId)
    requires Sound(w) && w.client.currentChatId == Some(c)
    requires c in w.client.threads ==> !w.client.threads[c].loading.WindowLoad? || w.client.threads[c].hasMoreNewer
    ensures Startable(w, c)
  {
    assert ThreadSound(w, c);
    if c in w.client.threads {
      var t := w.client.threads[c];
      forall m | m in w.delivered ensures Held(t, w.asked, m) || m in w.dropped {
        if t.hasMoreNewer {
          GapFreeHolds(t, LogOf(w, c), w.asked, m);
        }
      }
    }
  }

  lemma SelectIsSound(w: World, c: ChatId, around: bool)
    requires Sound(w) && Enabled(w, Select(c, around))
    ensures Sound(Next(w, Select(c, around)))
  {
    StartIsSound(w.(client := Opened(w.client, c), delivered := {}, dropped := {}), c, around);
  }

  lemma ReopenedIsStartable(w: World)
    requires Sound(w) && w.client.currentChatId.Some?
    ensures Startable(Reopened(w), w.client.currentChatId.value)
  {
    var c := w.client.currentChatId.value;
    assert ThreadSound(w, c);
    if c in w.client.threads {
      var t := w.client.threads[c];
      forall m | m in w.delivered ensures Held(t, w.asked, m) || m in Reopened(w).dropped {
        if t.hasMoreNewer {
          GapFreeHolds(t, LogOf(w, c), w.asked, m);
        }
      }
    }
  }

  lemma ReopenIsSound(w: World, around: bool)
    requires Sound(w) && Enabled(w, Reopen(around))
    ensures Sound(Next(w, Reopen(around)))
  {
    ReopenedIsStartable(w);
    StartIsSound(Reopened(w), w.client.currentChatId.value, around);
  }

  lemma LoadEdgeIsSound(w: World, back: bool)
    requires Sound(w) && Enabled(w, LoadEdge(back))
    ensures Sound(Next(w, LoadEdge(back)))
  {
    var c := w.client.currentChatId.value;
    assert ThreadSound(w, c);
    if c in w.client.threads {
      var t := w.client.threads[c];
      if !back && t.hasMoreNewer {
        forall m | m in w.delivered ensures Held(t, w.asked, m) {
          GapFreeHolds(t, LogOf(w, c), w.asked, m);
        }
      }
    }
  }

  // ----- Answers -----

  /** The messages of a page and the parked ones behind them. */
  lemma ExtendedHolds(messages: seq<MessageId>, pending: seq<MessageId>, m: MessageId)
    ensures m in Extended(messages, pending) <==> m in messages || m in pending
  {
    WithoutHolds(pending, messages, m);
  }

  lemma ExtendedNewestInLog(messages: seq<MessageId>, newestId: Option<MessageId>, pending: seq<MessageId>)
    ensures var n := ExtendedNewest(messages, newestId, pending);
            n == newestId || (n.Some? && n.value in pending)
  {
    var extra := Without(pending, messages);
    if extra != [] {
      WithoutHolds(pending, messages, extra[|extra| - 1]);
    }
  }

  /** An answer that nothing waits for changes nothing. */
  lemma StaleIsSound(w: World, id: nat)
    requires Sound(w) && id in w.requests
    ensures Sound(w.(requests := w.requests - {id}))
  {
    if HasThread(w.client) {
      assert ThreadSound(w, w.client.currentChatId.value);
    }
  }

  /** The request that the open chat waits for. */
  ghost predicate Awaited(w: World, id: nat) {
    id in w.requests && Sound(w) && IsRequest(w.client, w.requests[id].chat, id)
  }

  lemma AwaitedIsSound(w: World, id: nat)
    requires Awaited(w, id)
    ensures var c := w.requests[id].chat;
            w.client.currentChatId == Some(c) && ThreadSound(w, c) && RequestSound(w, c, w.client.threads[c], w.requests[id])
  {
  }

  predicate IsWindow(kind: Kind) { kind.Latest? || kind.Around? }

  lemma WindowPageHolds(w: World, id: nat, lo: nat, hi: nat, snapshot: nat, m: MessageId)
    requires Awaited(w, id) && IsWindow(w.requests[id].kind) && Enabled(w, Answer(id, lo, hi, snapshot))
    ensures var c := w.requests[id].chat;
            var log, t := LogOf(w, c), Answered(w, id, lo, hi, snapshot).client.threads[c];
            m in t.messages <==> (lo <= m < hi && log[m]) || (!t.hasMoreNewer && m in w.client.pendingLive)
  {
    var r := w.requests[id];
    var page := PageOf(w, r, lo, hi, snapshot);
    EndsOf(LogOf(w, r.chat), lo, hi);
    PageHolds(LogOf(w, r.chat), lo, hi, m);
    ExtendedHolds(PageMessages(page.raw), w.client.pendingLive, m);
  }

  lemma WindowAnswerIsSound(w: World, id: nat, lo: nat, hi: nat, snapshot: nat)
    requires Awaited(w, id) && IsWindow(w.requests[id].kind) && Enabled(w, Answer(id, lo, hi, snapshot))
    ensures Sound(Next(w, Answer(id, lo, hi, snapshot)))
  {
    AwaitedIsSound(w, id);
    var c := w.requests[id].chat;
    var v, log := Next(w, Answer(id, lo, hi, snapshot)), LogOf(w, c);
    var t := v.client.threads[c];
    var page := PageOf(w, w.requests[id], lo, hi, snapshot);
    EndsOf(log, lo, hi);
    ExtendedNewestInLog(PageMessages(page.raw), LastId(page.raw), w.client.pendingLive);
    forall m: MessageId
      ensures m in t.messages <==> (lo <= m < hi && log[m]) || (!t.hasMoreNewer && m in w.client.pendingLive)
    {
      WindowPageHolds(w, id, lo, hi, snapshot, m);
    }
    forall m | m in v.delivered ensures m < |log| && log[m] && Held(t, v.asked, m) {
      assert m in w.arriving;
      if t.hasMoreNewer {
        assert t.oldestId == Some(lo) && t.newestId == Some(hi - 1);
      } else if m !in w.client.pendingLive {
        assert m < hi;
        assert t.oldestId == Some(lo);
      }
    }
    assert ThreadSound(v, c);
  }

  lemma OlderPageHolds(w: World, id: nat, lo: nat, hi: nat, snapshot: nat, m: MessageId)
    requires Awaited(w, id) && w.requests[id].kind.Older? && Enabled(w, Answer(id, lo, hi, snapshot))
    ensures var c := w.requests[id].chat;
            var u := Answered(w, id, lo, hi, snapshot).client.threads[c];
            m in u.messages <==> (lo <= m < hi && LogOf(w, c)[m]) || m in w.client.threads[c].messages
  {
    var r := w.requests[id];
    PageHolds(LogOf(w, r.chat), lo, hi, m);
    WithoutHolds(PageMessages(PageOf(w, r, lo, hi, snapshot).raw), w.client.threads[r.chat].messages, m);
  }

  lemma OlderAnswerIsSound(w: World, id: nat, lo: nat, hi: nat, snapshot: nat)
    requires Awaited(w, id) && w.requests[id].kind.Older? && Enabled(w, Answer(id, lo, hi, snapshot))
    ensures Sound(Next(w, Answer(id, lo, hi, snapshot)))
  {
    AwaitedIsSound(w, id);
    var c := w.requests[id].chat;
    var v, log, t := Next(w, Answer(id, lo, hi, snapshot)), LogOf(w, c), w.client.threads[c];
    var u := v.client.threads[c];
    EndsOf(log, lo, hi);
    assert u.oldestId == Some(lo) && u.newestId == t.newestId && u.hasMoreNewer == t.hasMoreNewer;
    forall m: MessageId ensures m in u.messages <==> (lo <= m < hi && log[m]) || m in t.messages {
      OlderPageHolds(w, id, lo, hi, snapshot, m);
    }
    assert ThreadSound(v, c);
  }

  lemma NewerPageHolds(w: World, id: nat, lo: nat, hi: nat, snapshot: nat, m: MessageId)
    requires Awaited(w, id) && w.requests[id].kind.Newer? && Enabled(w, Answer(id, lo, hi, snapshot))
    ensures var c := w.requests[id].chat;
            var log, t, u := LogOf(w, c), w.client.threads[c], Answered(w, id, lo, hi, snapshot).client.threads[c];
            m in u.messages <==> (lo <= m < hi && log[m]) || m in t.messages || (!u.hasMoreNewer && m in w.client.pendingLive)
  {
    var r := w.requests[id];
    var page, t := PageOf(w, r, lo, hi, snapshot), w.client.threads[r.chat];
    EndsOf(LogOf(w, r.chat), lo, hi);
    PageHolds(LogOf(w, r.chat), lo, hi, m);
    WithoutHolds(PageMessages(page.raw), t.messages, m);
    ExtendedHolds(t.messages + Without(PageMessages(page.raw), t.messages), w.client.pendingLive, m);
  }

  lemma NewerAnswerIsSound(w: World, id: nat, lo: nat, hi: nat, snapshot: nat)
    requires Awaited(w, id) && w.requests[id].kind.Newer? && Enabled(w, Answer(id, lo, hi, snapshot))
    ensures Sound(Next(w, Answer(id, lo, hi, snapshot)))
  {
    AwaitedIsSound(w, id);
    var c := w.requests[id].chat;
    var v, log, t := Next(w, Answer(id, lo, hi, snapshot)), LogOf(w, c), w.client.threads[c];
    var u := v.client.threads[c];
    var page := PageOf(w, w.requests[id], lo, hi, snapshot);
    EndsOf(log, lo, hi);
    ExtendedNewestInLog(t.messages + Without(PageMessages(page.raw), t.messages), Or(LastId(page.raw), t.newestId),
                        w.client.pendingLive);
    forall m: MessageId
      ensures m in u.messages <==> (lo <= m < hi && log[m]) || m in t.messages || (!u.hasMoreNewer && m in w.client.pendingLive)
    {
      NewerPageHolds(w, id, lo, hi, snapshot, m);
    }
    forall m | m in v.delivered ensures m < |log| && log[m] && Held(u, v.asked, m) {
      GapFreeHolds(t, log, w.asked, m);
    }
    assert ThreadSound(v, c);
  }

  lemma WindowFailureIsSound(w: World, id: nat, gone: bool)
    requires Awaited(w, id) && IsWindow(w.requests[id].kind)
    ensures Sound(Failed(w, id, gone))
  {
    AwaitedIsSound(w, id);
    var c := w.requests[id].chat;
    var v, log, t := Failed(w, id, gone), LogOf(w, c), w.client.threads[c];
    if IsHeld(w.requests[id].state) {
      var u := v.client.threads[c];
      ExtendedNewestInLog(t.messages, t.newestId, w.client.pendingLive);
      forall m: MessageId ensures m in u.messages <==> m in t.messages || (!t.hasMoreNewer && m in w.client.pendingLive) {
        ExtendedHolds(t.messages, w.client.pendingLive, m);
      }
      forall m | m in v.delivered ensures Held(u, v.asked, m) || m in v.dropped {
        if t.hasMoreNewer {
          GapFreeHolds(t, log, w.asked, m);
        }
      }
      assert ThreadSound(v, c);
    }
  }

  lemma EdgeFailureIsSound(w: World, id: nat, gone: bool)
    requires Awaited(w, id) && !IsWindow(w.requests[id].kind)
    ensures Sound(Failed(w, id, gone))
  {
    AwaitedIsSound(w, id);
    var c := w.requests[id].chat;
    var v, log, t := Failed(w, id, gone), LogOf(w, c), w.client.threads[c];
    forall m | m in v.delivered ensures Held(v.client.threads[c], v.asked, m) || m in v.dropped {
      if t.hasMoreNewer {
        GapFreeHolds(t, log, w.asked, m);
      }
    }
    assert ThreadSound(v, c);
  }

  lemma AnswerIsSound(w: World, id: nat, lo: nat, hi: nat, snapshot: nat)
    requires Sound(w) && Enabled(w, Answer(id, lo, hi, snapshot))
    ensures Sound(Next(w, Answer(id, lo, hi, snapshot)))
  {
    if !IsRequest(w.client, w.requests[id].chat, id) {
      StaleIsSound(w, id);
    } else if w.requests[id].kind.Older? {
      OlderAnswerIsSound(w, id, lo, hi, snapshot);
    } else if w.requests[id].kind.Newer? {
      NewerAnswerIsSound(w, id, lo, hi, snapshot);
    } else {
      WindowAnswerIsSound(w, id, lo, hi, snapshot);
    }
  }

  lemma FailIsSound(w: World, id: nat, gone: bool)
    requires Sound(w) && id in w.requests
    ensures Sound(Failed(w, id, gone))
  {
    if !IsRequest(w.client, w.requests[id].chat, id) {
      StaleIsSound(w, id);
    } else if IsWindow(w.requests[id].kind) {
      WindowFailureIsSound(w, id, gone);
    } else {
      EdgeFailureIsSound(w, id, gone);
    }
  }

  lemma LoadIsSound(w: World, e: Event)
    requires Sound(w) && Enabled(w, e) && (e.Reload? || e.JumpToLatest? || e.AfterGone?)
    ensures Sound(Next(w, e))
  {
    var c := w.client.currentChatId.value;
    SettledIsStartable(w, c);
    StartIsSound(w, c, e.Reload? && e.around);
  }

  lemma OwingIsSound(w: World, owed: Option<ChatId>)
    requires Sound(w)
    ensures Sound(w.(client := w.client.(owedReloadChatId := owed)))
  {
    if HasThread(w.client) {
      assert ThreadSound(w, w.client.currentChatId.value);
    }
  }

  lemma PaidIsSound(w: World, c: ChatId, around: bool)
    requires Sound(w) && w.client.currentChatId == Some(c) && IsDue(w.client, c)
    ensures Sound(Paid(w, c, around))
  {
    var v := w.(client := OwedPaid(w.client, c));
    OwingIsSound(w, None);
    if CanReload(w.client, c) {
      SettledIsStartable(v, c);
      StartIsSound(v, c, around);
    }
  }

  lemma NextIsSound(w: World, e: Event)
    requires Sound(w) && Enabled(w, e)
    ensures Sound(Next(w, e))
  {
    match e
    case Store(c, shown) => StoreIsSound(w, c, shown);
    case Deliver(c, m, isNew) => DeliverIsSound(w, c, m, isNew);
    case Select(c, around) => SelectIsSound(w, c, around);
    case Reopen(around) => ReopenIsSound(w, around);
    case LoadEdge(back) => LoadEdgeIsSound(w, back);
    case Answer(id, lo, hi, snapshot) => AnswerIsSound(w, id, lo, hi, snapshot);
    case Fail(id, gone) => FailIsSound(w, id, gone);
    case OweReload => OwingIsSound(w, Some(w.client.currentChatId.value));
    case PayOwed(around) => PaidIsSound(w, w.client.currentChatId.value, around);
    case Leave =>
    case _ => LoadIsSound(w, e);
  }

  lemma {:induction false} RunIsSound(worlds: seq<World>, events: seq<Event>, k: nat)
    requires IsRun(worlds, events) && k < |worlds|
    ensures Sound(worlds[k])
  {
    if k > 0 {
      RunIsSound(worlds, events, k - 1);
      NextIsSound(worlds[k - 1], events[k - 1]);
    }
  }

  // ----- Theorems -----

  /** The window is settled and reaches the newest message. */
  predicate AtNewest(s: Client) {
    HasThread(s) && (Open(s).loading.NotLoading? || Open(s).loading.OlderLoad?) && !Open(s).hasMoreNewer
  }

  ghost predicate NothingLost(w: World) {
    AtNewest(w.client) ==> forall m | m in w.delivered :: NotLost(Open(w.client), w.asked, m)
  }

  /**
   * Over every run, a settled window at the newest message has lost exactly what a reopen dropped: of the rest
   * that was delivered since it was asked for, what the server stored since then is in the window, and so is
   * what was stored before, unless it is older than the whole window.
   */
  lemma NoLiveMessageIsLost(worlds: seq<World>, events: seq<Event>, k: nat)
    requires IsRun(worlds, events) && k < |worlds|
    ensures var w := worlds[k];
            AtNewest(w.client) ==>
              && (forall m | m in w.delivered :: NotLost(Open(w.client), w.asked, m) <==> m !in w.dropped)
              && (forall m | m in w.delivered && m >= w.asked && m !in w.dropped :: m in Open(w.client).messages)
  {
    RunIsSound(worlds, events, k);
    if AtNewest(worlds[k].client) {
      assert ThreadSound(worlds[k], worlds[k].client.currentChatId.value);
    }
  }

  /**
   * Over every run: the window on show has more to load above it exactly when it does not begin with the chat's
   * first message, and loading it moves its upper edge up.
   */
  lemma OlderMessagesCanBeLoaded(worlds: seq<World>, events: seq<Event>, k: nat)
    requires IsRun(worlds, events) && k < |worlds| && HasThread(worlds[k].client)
    ensures var s := worlds[k].client;
            && (Open(s).oldestId.Some? ==> (Open(s).hasMore <==> Open(s).oldestId.value > 0))
            && (Open(s).oldestId.Some? && Open(s).oldestId.value > 0 && Open(s).loading.NotLoading? ==>
                  CanLoadEdge(s, s.currentChatId.value, true))
  {
    RunIsSound(worlds, events, k);
    assert ThreadSound(worlds[k], worlds[k].client.currentChatId.value);
  }

  /** The answer to a load of older messages puts the upper edge on its first row. */
  lemma OlderAnswerMovesTheEdge(w: World, id: nat, lo: nat, hi: nat, snapshot: nat)
    requires Awaited(w, id) && w.requests[id].kind.Older? && Enabled(w, Answer(id, lo, hi, snapshot))
    ensures var t, u := w.client.threads[w.requests[id].chat],
                        Next(w, Answer(id, lo, hi, snapshot)).client.threads[w.requests[id].chat];
            && t.oldestId.Some? && u.oldestId == Some(lo) && u.loading.NotLoading?
            && (t.oldestId.value > 0 ==> lo < t.oldestId.value)
            && forall m: nat | lo <= m < t.oldestId.value && LogOf(w, w.requests[id].chat)[m] :: m in u.messages
  {
    AwaitedIsSound(w, id);
    EndsOf(LogOf(w, w.requests[id].chat), lo, hi);
    forall m: nat | lo <= m < hi && LogOf(w, w.requests[id].chat)[m]
      ensures m in Next(w, Answer(id, lo, hi, snapshot)).client.threads[w.requests[id].chat].messages
    {
      OlderPageHolds(w, id, lo, hi, snapshot, m);
    }
  }

  /** Only a reopen drops, and only what is parked for a window load over a window that needs it. */
  lemma OnlyReopensDrop(w: World, e: Event, m: MessageId)
    requires Enabled(w, e) && m in Next(w, e).dropped && m !in w.dropped
    ensures e.Reopen? && HasThread(w.client) && Open(w.client).loading.WindowLoad? && m in w.client.pendingLive
  {
  }

  /** The chat is not reopened while its window loads: the check that every caller but the restore makes. */
  ghost predicate ReopensSettled(worlds: seq<World>, events: seq<Event>)
    requires |worlds| == |events| + 1
  {
    forall i | 0 <= i < |events| && events[i].Reopen? && HasThread(worlds[i].client) ::
      !Open(worlds[i].client).loading.WindowLoad?
  }

  lemma {:induction false} NothingDropped(worlds: seq<World>, events: seq<Event>, k: nat)
    requires IsRun(worlds, events) && ReopensSettled(worlds, events) && k < |worlds|
    ensures worlds[k].dropped == {}
  {
    if k > 0 {
      NothingDropped(worlds, events, k - 1);
      if m :| m in worlds[k].dropped {
        OnlyReopensDrop(worlds[k - 1], events[k - 1], m);
      }
    }
  }

  /** Under the callers' own check nothing is ever lost. */
  lemma GuardedReopensLoseNothing(worlds: seq<World>, events: seq<Event>, k: nat)
    requires IsRun(worlds, events) && ReopensSettled(worlds, events) && k < |worlds|
    ensures NothingLost(worlds[k])
  {
    NothingDropped(worlds, events, k);
    NoLiveMessageIsLost(worlds, events, k);
  }

  /** A window load that the client waits for fails only when no reopen has dropped anything. */
  ghost predicate NoDroppingLoadFails(worlds: seq<World>, events: seq<Event>)
    requires |worlds| == |events| + 1
  {
    forall i | 0 <= i < |events| && events[i].Fail? && events[i].id in worlds[i].requests
               && IsRequest(worlds[i].client, worlds[i].requests[events[i].id].chat, events[i].id) ::
      worlds[i].dropped == {}
  }

  predicate DroppedIsLoading(w: World) { w.dropped != {} ==> HasThread(w.client) && Open(w.client).loading.WindowLoad? }

  lemma DroppedStaysLoading(w: World, e: Event)
    requires Sound(w) && DroppedIsLoading(w) && Enabled(w, e)
    requires e.Fail? && IsRequest(w.client, w.requests[e.id].chat, e.id) ==> w.dropped == {}
    ensures DroppedIsLoading(Next(w, e))
  {
    if HasThread(w.client) {
      assert ThreadSound(w, w.client.currentChatId.value);
    }
  }

  lemma {:induction false} DroppedIsAlwaysLoading(worlds: seq<World>, events: seq<Event>, k: nat)
    requires IsRun(worlds, events) && NoDroppingLoadFails(worlds, events) && k < |worlds|
    ensures DroppedIsLoading(worlds[k])
  {
    if k > 0 {
      DroppedIsAlwaysLoading(worlds, events, k - 1);
      RunIsSound(worlds, events, k - 1);
      DroppedStaysLoading(worlds[k - 1], events[k - 1]);
    }
  }

  /** A reopen whose load succeeds loses nothing either: only one that fails can. */
  lemma SuccessfulReopensLoseNothing(worlds: seq<World>, events: seq<Event>, k: nat)
    requires IsRun(worlds, events) && NoDroppingLoadFails(worlds, events) && k < |worlds|
    ensures NothingLost(worlds[k])
  {
    DroppedIsAlwaysLoading(worlds, events, k);
    NoLiveMessageIsLost(worlds, events, k);
  }

  // ----- Where messages are lost -----

  /**
   * Reopening the chat whose window is on show, with a load that then fails, loses nothing exactly when
   * nothing that the window needs is parked, and no reopen before it dropped anything.
   */
  lemma FailedReopenLosesTheParked(w: World, around: bool, gone: bool)
    requires Sound(w) && HasThread(w.client) && Open(w.client).messages != [] && (gone ==> around)
    ensures var v := Next(w, Reopen(around));
            && Enabled(v, Fail(v.client.requestSeq, gone))
            && var u := Next(v, Fail(v.client.requestSeq, gone));
               (NothingLost(u) <==> w.dropped == {} && DroppedBy(w) == {})
  {
    var v := Next(w, Reopen(around));
    ReopenIsSound(w, around);
    FailedLoadKeeps(v, gone);
    var u := Next(v, Fail(v.client.requestSeq, gone));
    assert ThreadSound(w, w.client.currentChatId.value);
    FailIsSound(v, v.client.requestSeq, gone);
    LostAreDropped(u);
    assert u.dropped == w.dropped + DroppedBy(w);
  }

  /** A load that fails over a window that held messages leaves that window, with what was dropped. */
  lemma FailedLoadKeeps(v: World, gone: bool)
    requires Awaited(v, v.client.requestSeq) && IsWindow(v.requests[v.client.requestSeq].kind)
    requires IsHeld(v.requests[v.client.requestSeq].state)
    ensures var u := Failed(v, v.client.requestSeq, gone);
            && HasThread(u.client) && Open(u.client).loading.NotLoading? && u.dropped == v.dropped
            && u.delivered == v.delivered
            && Open(u.client).hasMoreNewer == v.requests[v.client.requestSeq].state.value.hasMoreNewer
  {
    AwaitedIsSound(v, v.client.requestSeq);
  }

  /** In a settled window at the newest message, lost and dropped are the same. */
  lemma LostAreDropped(u: World)
    requires Sound(u)
    ensures AtNewest(u.client) ==> (NothingLost(u) <==> u.dropped == {})
    ensures !AtNewest(u.client) ==> NothingLost(u)
  {
    if AtNewest(u.client) {
      assert ThreadSound(u, u.client.currentChatId.value);
    }
  }

  lemma Extend(worlds: seq<World>, events: seq<Event>, e: Event) returns (more: seq<World>, done: seq<Event>)
    requires IsRun(worlds, events) && Enabled(worlds[|events|], e)
    ensures IsRun(more, done) && more[|done|] == Next(worlds[|events|], e)
  {
    more, done := worlds + [Next(worlds[|events|], e)], events + [e];
    forall i | 0 <= i < |done| ensures Enabled(more[i], done[i]) && more[i + 1] == Next(more[i], done[i]) {
      if i < |events| {
        assert more[i] == worlds[i] && more[i + 1] == worlds[i + 1] && done[i] == events[i];
      }
    }
  }

  const Settled: Thread := NoThread.(messages := [0], oldestId := Some(0), newestId := Some(0), requestId := 1)

  lemma OneMessagePage()
    ensures Rows([true], 0, 1) == [Row(0, true)] && PageMessages([Row(0, true)]) == [0]
    ensures Extended([0], []) == [0] && ExtendedNewest([0], Some(0), []) == Some(0)
  {
    assert Rows([true], 0, 0) == [];
    assert [Row(0, true)][..0] == [];
  }

  /** One chat with one message, opened. */
  lemma RunToOpen() returns (worlds: seq<World>, events: seq<Event>)
    ensures IsRun(worlds, events)
    ensures worlds[|events|] ==
            World(Client(Some(0), map[0 := NoThread.(requestId := 1, loading := WindowLoad)], [], 1, None),
                  map[0 := [true]], map[1 := Request(0, Latest, None, 1)], {}, 0, {}, 1, {})
  {
    worlds, events := [World0], [];
    worlds, events := Extend(worlds, events, Store(0, true));
    assert LogOf(World0, 0) + [true] == [true];
    assert worlds[|events|] == World0.(logs := map[0 := [true]]);
    worlds, events := Extend(worlds, events, Select(0, false));
    assert worlds[|events|].client.threads == map[0 := NoThread.(requestId := 1, loading := WindowLoad)];
    assert worlds[|events|].requests == map[1 := Request(0, Latest, None, 1)];
  }

  lemma RunToSettled() returns (worlds: seq<World>, events: seq<Event>)
    ensures IsRun(worlds, events)
    ensures worlds[|events|] ==
            World(Client(Some(0), map[0 := Settled], [], 1, None), map[0 := [true]], map[], {}, 1, {}, 1, {})
  {
    worlds, events := RunToOpen();
    OneMessagePage();
    worlds, events := Extend(worlds, events, Answer(1, 0, 1, 1));
  }

  /** A second message comes while the settled window is reloaded. */
  lemma RunToParked() returns (worlds: seq<World>, events: seq<Event>)
    ensures IsRun(worlds, events)
    ensures worlds[|events|].client ==
            Client(Some(0), map[0 := Settled.(requestId := 2, loading := WindowLoad)], [1], 2, None)
  {
    worlds, events := RunToSettled();
    worlds, events := Extend(worlds, events, Reload(false));
    worlds, events := Extend(worlds, events, Store(0, true));
    worlds, events := Extend(worlds, events, Deliver(0, 1, true));
  }

  /** The restore of the saved chat can lose a message: it reopens a chat that is being reloaded, and fails. */
  lemma RestoreCanLoseAMessage() returns (worlds: seq<World>, events: seq<Event>)
    ensures IsRun(worlds, events) && !NothingLost(worlds[|events|])
  {
    worlds, events := RunToParked();
    var w := worlds[|events|];
    RunIsSound(worlds, events, |events|);
    assert !NotLost(Open(w.client), w.asked, 1);
    assert 1 in DroppedBy(w);
    FailedReopenLosesTheParked(w, false, false);
    worlds, events := Extend(worlds, events, Reopen(false));
    worlds, events := Extend(worlds, events, Fail(worlds[|events|].client.requestSeq, false));
  }

  // ----- Older than the window -----

  const ThreeRows: Log := [true, true, true]

  lemma MiddlePage(m: nat)
    requires m < 3
    ensures Rows(ThreeRows, m, m + 1) == [Row(m, true)] && PageMessages([Row(m, true)]) == [m]
  {
    assert Rows(ThreeRows, m, m) == [] && [Row(m, true)][..0] == [];
  }

  lemma NothingParked()
    ensures Extended([1, 2], []) == [1, 2] && Without([2], [1]) == [2]
  {
    assert [2][..0] == [];
  }

  /** A chat with three messages, opened around the second. */
  lemma RunToMiddle() returns (worlds: seq<World>, events: seq<Event>)
    ensures IsRun(worlds, events)
    ensures worlds[|events|] ==
            World(Client(Some(0), map[0 := NoThread.(requestId := 1, loading := WindowLoad)], [], 1, None),
                  map[0 := ThreeRows], map[1 := Request(0, Around, None, 3)], {}, 0, {}, 3, {})
  {
    worlds, events := RunToThree();
    worlds, events := Extend(worlds, events, Select(0, true));
    assert worlds[|events|].client.threads == map[0 := NoThread.(requestId := 1, loading := WindowLoad)];
    assert worlds[|events|].requests == map[1 := Request(0, Around, None, 3)];
  }

  lemma RunToThree() returns (worlds: seq<World>, events: seq<Event>)
    ensures IsRun(worlds, events)
    ensures worlds[|events|] == World0.(logs := map[0 := ThreeRows])
  {
    worlds, events := [World0], [];
    worlds, events := StoreNext(worlds, events, []);
    assert [] + [true] == [true] && [true] + [true] == [true, true] && [true, true] + [true] == ThreeRows;
    worlds, events := StoreNext(worlds, events, [true]);
    worlds, events := StoreNext(worlds, events, [true, true]);
  }

  /** One more message of the one chat there is. */
  lemma StoreNext(worlds: seq<World>, events: seq<Event>, log: Log) returns (more: seq<World>, done: seq<Event>)
    requires IsRun(worlds, events)
    requires worlds[|events|] == World0.(logs := if log == [] then map[] else map[0 := log])
    ensures IsRun(more, done) && more[|done|] == World0.(logs := map[0 := log + [true]])
  {
    more, done := Extend(worlds, events, Store(0, true));
    assert LogOf(worlds[|events|], 0) == log;
    assert more[|done|].logs == map[0 := log + [true]];
  }

  const Middle: Thread := Thread([1], Some(1), Some(1), true, true, 1, NotLoading, false, false, false)

  lemma RunToMiddleShown() returns (worlds: seq<World>, events: seq<Event>)
    ensures IsRun(worlds, events)
    ensures worlds[|events|] ==
            World(Client(Some(0), map[0 := Middle], [], 1, None), map[0 := ThreeRows], map[], {}, 3, {}, 3, {})
  {
    worlds, events := RunToMiddle();
    MiddlePage(1);
    worlds, events := Extend(worlds, events, Answer(1, 1, 2, 3));
  }

  /** The window around the second message is on show when the first one is pushed. */
  lemma RunToLatePush() returns (worlds: seq<World>, events: seq<Event>)
    ensures IsRun(worlds, events)
    ensures worlds[|events|] ==
            World(Client(Some(0), map[0 := Middle], [], 1, None), map[0 := ThreeRows], map[], {0}, 3, {0}, 3, {})
  {
    worlds, events := RunToMiddleShown();
    worlds, events := Extend(worlds, events, Deliver(0, 0, true));
  }

  /** A message delivered while the window is on show can stay out of it: older than all of it. */
  lemma DeliveredCanBeOlderThanTheWindow() returns (worlds: seq<World>, events: seq<Event>)
    ensures IsRun(worlds, events)
    ensures var w := worlds[|events|];
            && AtNewest(w.client) && 0 in w.delivered && w.dropped == {}
            && Open(w.client).messages == [1, 2] && Open(w.client).oldestId == Some(1) && 0 < w.asked
  {
    worlds, events := RunToLatePush();
    worlds, events := Extend(worlds, events, LoadEdge(false));
    MiddlePage(2);
    NothingParked();
    worlds, events := Extend(worlds, events, Answer(2, 2, 3, 3));
  }
}
