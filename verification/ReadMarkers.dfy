/**
 * Read markers of the WhatsApp client (frontend/app/services/whatsapp.js): the newest marker of a chat is
 * sent at most once per throttle window, and again after a reconnect until the server has answered.
 */
module ReadMarkers {
  type ChatId = nat
  type MessageId = nat

  const READ_THROTTLE_MS: int := 1000

  datatype Emit = Emit(chatId: ChatId, messageId: MessageId, at: int)

  /** `timers` holds when each chat's throttle timer is due; `emits` is what went out on the socket. */
  datatype Markers = Markers(pending: map<ChatId, MessageId>, timers: map<ChatId, int>, sent: map<ChatId, MessageId>,
                             unacked: map<ChatId, MessageId>, connected: bool, emits: seq<Emit>)

  const Markers0: Markers := Markers(map[], map[], map[], map[], false, [])

  function Flushed(s: Markers, c: ChatId, now: int): Markers {
    if c !in s.pending || !s.connected then s
    else
      var m := s.pending[c];
      var t := s.(pending := s.pending - {c});
      if c in s.sent && s.sent[c] == m then t
      else
        t.(sent := s.sent[c := m], unacked := s.unacked[c := m], emits := s.emits + [Emit(c, m, now)],
           timers := s.timers[c := now + READ_THROTTLE_MS])
  }

  function Marked(s: Markers, c: ChatId, m: MessageId, now: int): Markers {
    if c in s.sent && s.sent[c] == m then s
    else
      var t := s.(pending := s.pending[c := m]);
      if c in s.timers then t else Flushed(t, c, now)
  }

  /** The answer to a marker; a refusal lets the same marker be sent again. */
  function Acked(s: Markers, c: ChatId, m: MessageId, ok: bool): Markers {
    s.(unacked := if c in s.unacked && s.unacked[c] == m then s.unacked - {c} else s.unacked,
       sent := if !ok && c in s.sent && s.sent[c] == m then s.sent - {c} else s.sent)
  }

  function TimerFired(s: Markers, c: ChatId, now: int): Markers {
    Flushed(s.(timers := s.timers - {c}), c, now)
  }

  predicate Resends(s: Markers, c: ChatId) { c in s.unacked && c in s.sent && s.sent[c] == s.unacked[c] }

  /** A new connection: markers without an answer wait to be sent again, behind newer ones. */
  function Requeued(s: Markers): Markers {
    s.(sent := map c | c in s.sent && !Resends(s, c) :: s.sent[c], pending := s.unacked + s.pending, unacked := map[],
       connected := true)
  }

  /** The loop over the markers without an answer, with `keys` to go. */
  ghost predicate Requeueing(s: Markers, keys: set<ChatId>, sent: map<ChatId, MessageId>, pending: map<ChatId,
                             MessageId>) {
    && keys <= s.unacked.Keys
    && (forall c :: c in sent <==> c in s.sent && (c in keys || !Resends(s, c)))
    && (forall c | c in sent :: sent[c] == s.sent[c])
    && (forall c :: c in pending <==> c in s.pending || (c in s.unacked && c !in keys))
    && (forall c | c in pending :: pending[c] == if c in s.pending then s.pending[c] else s.unacked[c])
  }

  lemma RequeueStep(s: Markers, keys: set<ChatId>, sent: map<ChatId, MessageId>, pending: map<ChatId, MessageId>,
                    c: ChatId)
    requires Requeueing(s, keys, sent, pending) && c in keys
    ensures Requeueing(s, keys - {c}, if Resends(s, c) then sent - {c} else sent,
                       if c in pending then pending else pending[c := s.unacked[c]])
  {
    var rest := keys - {c};
    forall d: ChatId ensures d in keys <==> d in rest || d == c {}
  }

  lemma RequeueEnds(s: Markers, sent: map<ChatId, MessageId>, pending: map<ChatId, MessageId>)
    requires Requeueing(s, {}, sent, pending)
    ensures sent == Requeued(s).sent && pending == Requeued(s).pending
  {
  }

  /** The chats in `order`, each flushed unless its timer runs. */
  function FlushedAll(s: Markers, order: seq<ChatId>, now: int): Markers {
    if order == [] then s
    else
      var t := FlushedAll(s, order[..|order| - 1], now);
      var c := order[|order| - 1];
      if c in t.timers then t else Flushed(t, c, now)
  }

  function Stopped(s: Markers): Markers {
    s.(pending := map[], timers := map[], sent := map[], unacked := map[], connected := false)
  }

  class ReadMarkerQueue {
    var pendingRead: map<ChatId, MessageId>
    var readTimers: map<ChatId, int>
    var sentRead: map<ChatId, MessageId>
    var unackedRead: map<ChatId, MessageId>
    var connected: bool
    var emits: seq<Emit>

    function Now(): Markers
      reads this
    {
      Markers(pendingRead, readTimers, sentRead, unackedRead, connected, emits)
    }

    constructor ()
      ensures Now() == Markers0
    {
      pendingRead, readTimers, sentRead, unackedRead := map[], map[], map[], map[];
      connected, emits := false, [];
    }

    method MarkRead(c: ChatId, m: MessageId, now: int)
      modifies this
      ensures Now() == Marked(old(Now()), c, m, now)
    {
      if c in sentRead && sentRead[c] == m {
        return;
      }
      pendingRead := pendingRead[c := m];
      if c !in readTimers {
        FlushRead(c, now);
      }
    }

    method FlushRead(c: ChatId, now: int)
      modifies this
      ensures Now() == Flushed(old(Now()), c, now)
    {
      if c !in pendingRead || !connected {
        return;
      }
      var m := pendingRead[c];
      pendingRead := pendingRead - {c};
      if c in sentRead && sentRead[c] == m {
        return;
      }
      sentRead := sentRead[c := m];
      unackedRead := unackedRead[c := m];
      emits := emits + [Emit(c, m, now)];
      readTimers := readTimers[c := now + READ_THROTTLE_MS];
    }

    /** The callback of an emit. */
    method OnAck(c: ChatId, m: MessageId, ok: bool)
      modifies this
      ensures Now() == Acked(old(Now()), c, m, ok)
    {
      if c in unackedRead && unackedRead[c] == m {
        unackedRead := unackedRead - {c};
      }
      if !ok && c in sentRead && sentRead[c] == m {
        sentRead := sentRead - {c};
      }
    }

    method OnTimer(c: ChatId, now: int)
      modifies this
      ensures Now() == TimerFired(old(Now()), c, now)
    {
      readTimers := readTimers - {c};
      FlushRead(c, now);
    }

    /** One marker without an answer: it may be sent again, unless a newer one waits. */
    method RequeueOne(c: ChatId, m: MessageId)
      modifies this`sentRead, this`pendingRead
      ensures sentRead == if c in old(sentRead) && old(sentRead)[c] == m then old(sentRead) - {c} else old(sentRead)
      ensures pendingRead == if c in old(pendingRead) then old(pendingRead) else old(pendingRead)[c := m]
    {
      if c in sentRead && sentRead[c] == m {
        sentRead := sentRead - {c};
      }
      if c !in pendingRead {
        pendingRead := pendingRead[c := m];
      }
    }

    method RequeueUnackedRead()
      modifies this
      ensures Now() == Requeued(old(Now()))
    {
      ghost var s := Now();
      connected := true;
      var keys := unackedRead.Keys;
      while keys != {}
        invariant Now() == s.(connected := true, sent := sentRead, pending := pendingRead)
        invariant Requeueing(s, keys, sentRead, pendingRead)
        decreases |keys|
      {
        var c: ChatId :| c in keys;
        RequeueStep(s, keys, sentRead, pendingRead, c);
        RequeueOne(c, unackedRead[c]);
        keys := keys - {c};
      }
      unackedRead := map[];
      RequeueEnds(s, sentRead, pendingRead);
    }

    /** `order` is the pending chats as the map lists them. */
    method OnReady(order: seq<ChatId>, now: int)
      requires forall c :: c in order <==> c in pendingRead
      modifies this
      ensures Now() == FlushedAll(old(Now()), order, now)
    {
      var i: nat := 0;
      while i < |order|
        invariant i <= |order| && Now() == FlushedAll(old(Now()), order[..i], now)
      {
        assert order[..i + 1][..i] == order[..i];
        if order[i] !in readTimers {
          FlushRead(order[i], now);
        }
        i := i + 1;
      }
      assert order[..i] == order;
    }

    method StopSocket()
      modifies this
      ensures Now() == Stopped(old(Now()))
    {
      readTimers, pendingRead, sentRead, unackedRead := map[], map[], map[], map[];
      connected := false;
    }
  }

  // ----- Runs -----

  datatype Event =
    | MarkRead(chatId: ChatId, messageId: MessageId)
    | Ack(chatId: ChatId, messageId: MessageId, ok: bool)
    | Timer(chatId: ChatId)
    | Connect
    | Disconnect
    | Ready(order: seq<ChatId>)
    | Stop
    | Wait(ms: nat)

  /**
   * The queue in time, since the last stop: `asked` are the markers asked for, `taken` the last of each chat
   * that was not skipped as already sent; `confirmed` are those that the server took, `refused` those that it
   * refused and that were not taken up again, `lost` those that another marker displaced and that were neither
   * answered nor asked for again. `settled` says that the ready of this connection is handled; `since` counts
   * the emits before the last stop.
   */
  datatype World = World(markers: Markers, now: int, asked: set<Marker>, taken: map<ChatId, MessageId>,
                         confirmed: set<Marker>, refused: set<Marker>, lost: set<Marker>, settled: bool, since: nat)

  type Marker = (ChatId, MessageId)

  const World0: World := World(Markers0, 0, {}, map[], {}, {}, {}, false, 0)

  /** A timer fires when it is due. */
  ghost predicate Enabled(w: World, e: Event) {
    match e
    case Timer(c) => c in w.markers.timers && w.markers.timers[c] <= w.now
    case Connect => !w.markers.connected
    case Ready(order) => forall c :: c in order <==> c in w.markers.pending
    case _ => true
  }

  /** The marker is the one sent last, and is not taken up again. */
  predicate IsSkipped(s: Markers, c: ChatId, m: MessageId) { c in s.sent && s.sent[c] == m }

  predicate IsPending(s: Markers, c: ChatId, n: MessageId) { c in s.pending && s.pending[c] == n }

  predicate IsAwaited(s: Markers, c: ChatId, n: MessageId) { c in s.unacked && s.unacked[c] == n }

  /**
   * The event puts another marker into the place of this one: a new one behind it in the queue, a flush over an
   * awaited one, or, on a new connection, a waiting one before an awaited one.
   */
  predicate Displaces(s: Markers, e: Event, c: ChatId, n: MessageId) {
    match e
    case MarkRead(d, m) =>
      && d == c && m != n && !IsSkipped(s, c, m)
      && (IsPending(s, c, n) || (IsAwaited(s, c, n) && c !in s.timers && s.connected))
    case Timer(d) => d == c && IsAwaited(s, c, n) && c in s.pending && s.connected
    case Ready(_) => c !in s.timers && IsAwaited(s, c, n) && c in s.pending && s.connected
    case Connect => IsAwaited(s, c, n) && c in s.pending
    case _ => false
  }

  function Held(s: Markers): set<Marker> {
    (set c | c in s.pending :: (c, s.pending[c])) + (set c | c in s.unacked :: (c, s.unacked[c]))
  }

  /** The markers without an answer that the event displaces. */
  function LostBy(w: World, e: Event): set<Marker> {
    set p | p in Held(w.markers) && p !in w.confirmed && p !in w.refused && Displaces(w.markers, e, p.0, p.1)
  }

  /** A marker is asked for. */
  function Asked(w: World, c: ChatId, m: MessageId): World {
    var skipped := IsSkipped(w.markers, c, m);
    w.(markers := Marked(w.markers, c, m, w.now), asked := w.asked + {(c, m)},
       taken := if skipped then w.taken else w.taken[c := m],
       refused := if skipped then w.refused else w.refused - {(c, m)},
       lost := w.lost + LostBy(w, MarkRead(c, m)) - {(c, m)})
  }

  function Next(w: World, e: Event): World {
    match e
    case MarkRead(c, m) => Asked(w, c, m)
    case Ack(c, m, ok) =>
      w.(markers := Acked(w.markers, c, m, ok),
         confirmed := if ok then w.confirmed + {(c, m)} else w.confirmed,
         refused := if ok then w.refused else w.refused + {(c, m)},
         lost := w.lost - {(c, m)})
    case Timer(c) => w.(markers := TimerFired(w.markers, c, w.now), lost := w.lost + LostBy(w, e))
    case Connect => w.(markers := Requeued(w.markers), settled := false, lost := w.lost + LostBy(w, e))
    case Disconnect => w.(markers := w.markers.(connected := false), settled := false)
    case Ready(order) =>
      w.(markers := FlushedAll(w.markers, order, w.now), settled := w.markers.connected, lost := w.lost + LostBy(w, e))
    case Stop =>
      World(Stopped(w.markers), w.now, {}, map[], {}, {}, {}, false, |w.markers.emits|)
    case Wait(ms) => w.(now := w.now + ms)
  }

  ghost predicate IsRun(worlds: seq<World>, events: seq<Event>) {
    && |worlds| == |events| + 1 && worlds[0] == World0
    && forall i | 0 <= i < |events| :: Enabled(worlds[i], events[i]) && worlds[i + 1] == Next(worlds[i], events[i])
  }

  // ----- The invariant -----

  /** What became of the markers of a chat. */
  datatype Tally = Tally(taken: map<ChatId, MessageId>, confirmed: set<Marker>, refused: set<Marker>)

  function TallyOf(w: World): Tally { Tally(w.taken, w.confirmed, w.refused) }

  /** One chat's markers: what waits is the last one taken, what was sent is awaited or confirmed. */
  ghost predicate ChatSound(s: Markers, tally: Tally, c: ChatId) {
    && (c in s.unacked ==> c in s.sent && s.sent[c] == s.unacked[c])
    && (c in s.sent ==> c in tally.taken
                        && ((c in s.unacked && s.unacked[c] == s.sent[c]) || (c, s.sent[c]) in tally.confirmed))
    && (c in s.pending ==> c in tally.taken && s.pending[c] == tally.taken[c] && !IsSkipped(s, c, s.pending[c]))
    && (c in s.unacked && c !in s.pending ==> c in tally.taken && s.unacked[c] == tally.taken[c])
    && (c in tally.taken ==> IsKept(s, tally.taken[c], tally.confirmed, c) || (c, tally.taken[c]) in tally.refused)
  }

  /** The marker is pending, awaits its answer, or is confirmed. */
  predicate IsKept(s: Markers, m: MessageId, confirmed: set<Marker>, c: ChatId) {
    IsPending(s, c, m) || IsAwaited(s, c, m) || (c, m) in confirmed
  }

  ghost predicate Spaced(emits: seq<Emit>, since: nat) {
    forall i, j | since <= i < j < |emits| && emits[i].chatId == emits[j].chatId ::
      emits[i].at + READ_THROTTLE_MS <= emits[j].at
  }

  /** Inside the window of an emit its chat's timer runs until the window's end, or later. */
  ghost predicate Throttled(s: Markers, now: int, since: nat) {
    && since <= |s.emits|
    && Spaced(s.emits, since)
    && forall i | since <= i < |s.emits| ::
         now < s.emits[i].at + READ_THROTTLE_MS ==>
           s.emits[i].chatId in s.timers && s.timers[s.emits[i].chatId] >= s.emits[i].at + READ_THROTTLE_MS
  }

  ghost predicate AllTimed(s: Markers) { forall c | c in s.pending :: c in s.timers }

  ghost predicate Sound(w: World) {
    && (forall c: ChatId :: ChatSound(w.markers, TallyOf(w), c))
    && Throttled(w.markers, w.now, w.since)
    && (w.settled ==> w.markers.connected && AllTimed(w.markers))
  }

  // ----- A flush -----

  lemma FlushChatSound(s: Markers, now: int, tally: Tally, c: ChatId, d: ChatId)
    requires ChatSound(s, tally, d)
    ensures ChatSound(Flushed(s, c, now), tally, d)
  {
  }

  lemma FlushThrottled(s: Markers, c: ChatId, now: int, since: nat)
    requires Throttled(s, now, since) && c !in s.timers
    ensures Throttled(Flushed(s, c, now), now, since)
  {
    var t := Flushed(s, c, now);
    if |t.emits| > |s.emits| {
      forall i | since <= i < |s.emits| && s.emits[i].chatId == c ensures s.emits[i].at + READ_THROTTLE_MS <= now {
      }
    }
  }

  /** All that a flush and a sweep keep. */
  ghost predicate SoundAt(s: Markers, w: World) {
    (forall c: ChatId :: ChatSound(s, TallyOf(w), c)) && Throttled(s, w.now, w.since)
  }

  lemma FlushIsSound(s: Markers, c: ChatId, w: World)
    requires SoundAt(s, w) && c !in s.timers
    ensures SoundAt(Flushed(s, c, w.now), w)
  {
    forall d: ChatId ensures ChatSound(Flushed(s, c, w.now), TallyOf(w), d) {
      FlushChatSound(s, w.now, TallyOf(w), c, d);
    }
    FlushThrottled(s, c, w.now, w.since);
  }

  lemma {:induction false} SweepIsSound(s: Markers, order: seq<ChatId>, w: World)
    requires SoundAt(s, w)
    ensures SoundAt(FlushedAll(s, order, w.now), w)
  {
    if order != [] {
      SweepIsSound(s, order[..|order| - 1], w);
      var t, c := FlushedAll(s, order[..|order| - 1], w.now), order[|order| - 1];
      if c !in t.timers {
        FlushIsSound(t, c, w);
      }
    }
  }

  lemma {:induction false} SweepTimesAll(s: Markers, order: seq<ChatId>, now: int)
    requires s.connected
    ensures var t := FlushedAll(s, order, now);
            && t.connected && t.pending.Keys <= s.pending.Keys && s.timers.Keys <= t.timers.Keys
            && forall c | c in order && c in t.pending :: c in t.timers
  {
    if order != [] {
      SweepTimesAll(s, order[..|order| - 1], now);
      assert order == order[..|order| - 1] + [order[|order| - 1]];
    }
  }

  // ----- Every event -----

  lemma MarkIsSound(w: World, c: ChatId, m: MessageId)
    requires Sound(w) && Enabled(w, MarkRead(c, m))
    ensures Sound(Next(w, MarkRead(c, m)))
  {
    var s, v := w.markers, Next(w, MarkRead(c, m));
    assert ChatSound(s, TallyOf(w), c);
    if c in s.sent && s.sent[c] == m {
      forall d: ChatId ensures ChatSound(v.markers, TallyOf(v), d) {
        assert ChatSound(s, TallyOf(w), d);
      }
    } else {
      var t := s.(pending := s.pending[c := m]);
      forall d: ChatId ensures ChatSound(t, TallyOf(v), d) {
        assert ChatSound(s, TallyOf(w), d);
      }
      if c !in s.timers {
        FlushIsSound(t, c, v);
      }
    }
  }

  lemma AckIsSound(w: World, c: ChatId, m: MessageId, ok: bool)
    requires Sound(w)
    ensures Sound(Next(w, Ack(c, m, ok)))
  {
    var v := Next(w, Ack(c, m, ok));
    forall d: ChatId ensures ChatSound(v.markers, TallyOf(v), d) {
      assert ChatSound(w.markers, TallyOf(w), d);
    }
  }

  lemma TimerKeepsSound(w: World, c: ChatId)
    requires Sound(w) && Enabled(w, Timer(c))
    ensures SoundAt(Flushed(w.markers.(timers := w.markers.timers - {c}), c, w.now), w)
    ensures forall d: ChatId :: ChatSound(w.markers.(timers := w.markers.timers - {c}), TallyOf(w), d)
  {
    var t := w.markers.(timers := w.markers.timers - {c});
    forall d: ChatId ensures ChatSound(t, TallyOf(w), d) {
      assert ChatSound(w.markers, TallyOf(w), d);
    }
    FlushIsSound(t, c, w);
  }

  lemma TimerIsSound(w: World, c: ChatId)
    requires Sound(w) && Enabled(w, Timer(c))
    ensures Sound(Next(w, Timer(c)))
  {
    TimerKeepsSound(w, c);
    assert TallyOf(Next(w, Timer(c))) == TallyOf(w);
  }

  lemma ConnectIsSound(w: World)
    requires Sound(w)
    ensures Sound(Next(w, Connect))
  {
    var v := Next(w, Connect);
    forall d: ChatId ensures ChatSound(v.markers, TallyOf(v), d) {
      assert ChatSound(w.markers, TallyOf(w), d);
    }
  }

  lemma QuietIsSound(w: World, e: Event)
    requires Sound(w) && (e.Disconnect? || e.Stop? || e.Wait?)
    ensures Sound(Next(w, e))
  {
    var v := Next(w, e);
    forall d: ChatId ensures ChatSound(v.markers, TallyOf(v), d) {
      assert ChatSound(w.markers, TallyOf(w), d);
    }
  }

  lemma ReadyIsSound(w: World, order: seq<ChatId>)
    requires Sound(w) && Enabled(w, Ready(order))
    ensures Sound(Next(w, Ready(order)))
  {
    SweepIsSound(w.markers, order, w);
    assert TallyOf(Next(w, Ready(order))) == TallyOf(w);
    if w.markers.connected {
      SweepTimesAll(w.markers, order, w.now);
    }
  }

  lemma NextIsSound(w: World, e: Event)
    requires Sound(w) && Enabled(w, e)
    ensures Sound(Next(w, e))
  {
    match e
    case MarkRead(c, m) => MarkIsSound(w, c, m);
    case Ack(c, m, ok) => AckIsSound(w, c, m, ok);
    case Timer(c) => TimerIsSound(w, c);
    case Connect => ConnectIsSound(w);
    case Ready(order) => ReadyIsSound(w, order);
    case _ => QuietIsSound(w, e);
  }

  lemma {:induction false} RunIsSound(worlds: seq<World>, events: seq<Event>, k: nat)
    requires IsRun(worlds, events) && k < |worlds|
    ensures Sound(worlds[k])
  {
    if k > 0 {
      RunIsSound(worlds, events, k - 1);
      NextIsSound(worlds[k - 1], events[k - 1]);
    }
  }

  // ----- Theorems -----

  /**
   * Over every run, in whatever order markers are asked for: the last one taken of a chat since the last stop
   * is pending, awaits its answer, is confirmed, or was refused after it was last taken.
   */
  lemma LastMarkerIsKept(worlds: seq<World>, events: seq<Event>, k: nat, c: ChatId)
    requires IsRun(worlds, events) && k < |worlds| && c in worlds[k].taken
    ensures var w := worlds[k];
            IsKept(w.markers, w.taken[c], w.confirmed, c) || (c, w.taken[c]) in w.refused
  {
    RunIsSound(worlds, events, k);
    assert ChatSound(worlds[k].markers, TallyOf(worlds[k]), c);
  }

  // ----- What becomes of every marker -----

  predicate IsHeld(s: Markers, c: ChatId, n: MessageId) { IsPending(s, c, n) || IsAwaited(s, c, n) }

  predicate SameAt(s: Markers, t: Markers, c: ChatId) {
    && (c in t.pending <==> c in s.pending) && (c in s.pending ==> t.pending[c] == s.pending[c])
    && (c in t.unacked <==> c in s.unacked) && (c in s.unacked ==> t.unacked[c] == s.unacked[c])
    && (c in t.sent <==> c in s.sent) && (c in s.sent ==> t.sent[c] == s.sent[c])
    && (c in t.timers <==> c in s.timers)
  }

  /** A sweep sends what waits without a timer, and leaves the other chats alone. */
  lemma {:induction false} SweepAt(s: Markers, order: seq<ChatId>, now: int, c: ChatId)
    requires c in s.pending ==> !IsSkipped(s, c, s.pending[c])
    ensures var t := FlushedAll(s, order, now);
            && t.connected == s.connected
            && if c in order && c in s.pending && s.connected && c !in s.timers
               then c !in t.pending && c in t.timers && IsAwaited(t, c, s.pending[c])
               else SameAt(s, t, c)
  {
    if order != [] {
      SweepAt(s, order[..|order| - 1], now, c);
      assert order == order[..|order| - 1] + [order[|order| - 1]];
    }
  }

  lemma SweepHolds(w: World, order: seq<ChatId>, c: ChatId, n: MessageId)
    requires ChatSound(w.markers, TallyOf(w), c) && Enabled(w, Ready(order))
    ensures IsHeld(Next(w, Ready(order)).markers, c, n) <==>
            IsHeld(w.markers, c, n) && !Displaces(w.markers, Ready(order), c, n)
  {
    SweepAt(w.markers, order, w.now, c);
  }

  /** Held markers leave only by the answer, a stop, or a marker that displaces them. */
  lemma HeldUnlessDisplaced(w: World, e: Event, c: ChatId, n: MessageId)
    requires ChatSound(w.markers, TallyOf(w), c) && Enabled(w, e) && IsHeld(w.markers, c, n)
    requires !e.Stop? && !(e.Ack? && e.chatId == c && e.messageId == n)
    ensures IsHeld(Next(w, e).markers, c, n) <==> !Displaces(w.markers, e, c, n)
  {
    if e.Ready? {
      SweepHolds(w, e.order, c, n);
    }
  }

  lemma OnlyAskingHolds(w: World, e: Event, c: ChatId, n: MessageId)
    requires ChatSound(w.markers, TallyOf(w), c) && Enabled(w, e) && !IsHeld(w.markers, c, n)
    requires !(e.MarkRead? && e.chatId == c && e.messageId == n)
    ensures !IsHeld(Next(w, e).markers, c, n)
  {
    if e.Ready? {
      SweepHolds(w, e.order, c, n);
    }
  }

  /**
   * One event and one kept marker: it stays kept exactly when the server confirmed it or no other marker takes
   * its place. Every condition can be read off the queue before the event.
   */
  lemma KeptUnlessDisplaced(w: World, e: Event, c: ChatId, n: MessageId)
    requires Sound(w) && Enabled(w, e) && IsKept(w.markers, n, w.confirmed, c)
    requires !e.Stop? && !(e.Ack? && e.chatId == c && e.messageId == n)
    ensures var v := Next(w, e);
            IsKept(v.markers, n, v.confirmed, c) <==> (c, n) in w.confirmed || !Displaces(w.markers, e, c, n)
  {
    assert ChatSound(w.markers, TallyOf(w), c);
    if IsHeld(w.markers, c, n) {
      HeldUnlessDisplaced(w, e, c, n);
    }
  }

  /** What is held or lost was asked for; what was asked for is kept or refused, or else lost. */
  ghost predicate Accounted(w: World, c: ChatId, n: MessageId) {
    && (IsHeld(w.markers, c, n) || (c, n) in w.lost ==> (c, n) in w.asked)
    && ((c, n) in w.asked ==>
          (IsKept(w.markers, n, w.confirmed, c) || (c, n) in w.refused <==> (c, n) !in w.lost))
  }

  lemma HeldIsListed(s: Markers, c: ChatId, n: MessageId)
    ensures (c, n) in Held(s) <==> IsHeld(s, c, n)
  {
    if IsPending(s, c, n) {
      assert (c, n) in set d | d in s.pending :: (d, s.pending[d]);
    }
    if IsAwaited(s, c, n) {
      assert (c, n) in set d | d in s.unacked :: (d, s.unacked[d]);
    }
  }

  lemma AskedIsAccounted(w: World, c: ChatId, n: MessageId)
    requires ChatSound(w.markers, TallyOf(w), c) && Accounted(w, c, n)
    ensures Accounted(Next(w, MarkRead(c, n)), c, n)
  {
  }

  lemma AnsweredIsAccounted(w: World, c: ChatId, n: MessageId, ok: bool)
    requires Accounted(w, c, n)
    ensures Accounted(Next(w, Ack(c, n, ok)), c, n)
  {
  }

  lemma OtherIsAccounted(w: World, e: Event, c: ChatId, n: MessageId)
    requires ChatSound(w.markers, TallyOf(w), c) && Accounted(w, c, n) && Enabled(w, e) && !e.Stop?
    requires (e.MarkRead? || e.Ack?) && e.chatId == c ==> e.messageId != n
    ensures Accounted(Next(w, e), c, n)
  {
    HeldIsListed(w.markers, c, n);
    if IsHeld(w.markers, c, n) {
      HeldUnlessDisplaced(w, e, c, n);
    } else {
      OnlyAskingHolds(w, e, c, n);
    }
  }

  lemma NextIsAccounted(w: World, e: Event, c: ChatId, n: MessageId)
    requires Sound(w) && Accounted(w, c, n) && Enabled(w, e)
    ensures Accounted(Next(w, e), c, n)
  {
    assert ChatSound(w.markers, TallyOf(w), c);
    if e == MarkRead(c, n) {
      AskedIsAccounted(w, c, n);
    } else if e.Ack? && e.chatId == c && e.messageId == n {
      AnsweredIsAccounted(w, c, n, e.ok);
    } else if !e.Stop? {
      OtherIsAccounted(w, e, c, n);
    }
  }

  lemma {:induction false} EveryMarkerIsAccounted(worlds: seq<World>, events: seq<Event>, k: nat, c: ChatId,
                                                  n: MessageId)
    requires IsRun(worlds, events) && k < |worlds|
    ensures Accounted(worlds[k], c, n)
  {
    if k > 0 {
      EveryMarkerIsAccounted(worlds, events, k - 1, c, n);
      RunIsSound(worlds, events, k - 1);
      NextIsAccounted(worlds[k - 1], events[k - 1], c, n);
    }
  }

  /**
   * Over every run, in whatever order: a marker asked for since the last stop is pending, awaits its answer, is
   * confirmed or refused, exactly when it is not among those that another marker displaced.
   */
  lemma MarkersAreLostExactlyWhenDisplaced(worlds: seq<World>, events: seq<Event>, k: nat, c: ChatId, n: MessageId)
    requires IsRun(worlds, events) && k < |worlds| && (c, n) in worlds[k].asked
    ensures var w := worlds[k];
            IsKept(w.markers, n, w.confirmed, c) || (c, n) in w.refused <==> (c, n) !in w.lost
  {
    EveryMarkerIsAccounted(worlds, events, k, c, n);
  }

  /** A marker is lost in the event that displaces it, while it is held without an answer. */
  lemma LostInTheEventThatDisplaces(w: World, e: Event, c: ChatId, n: MessageId)
    requires (c, n) !in w.lost
    ensures (c, n) in Next(w, e).lost <==>
            IsHeld(w.markers, c, n) && (c, n) !in w.confirmed && (c, n) !in w.refused && Displaces(w.markers, e, c, n)
  {
    HeldIsListed(w.markers, c, n);
  }

  // ----- Markers asked for in order -----

  /** No marker asked for of the chat is newer. */
  ghost predicate IsNewest(w: World, c: ChatId, n: MessageId) {
    (c, n) in w.asked && forall m | (c, m) in w.asked :: m <= n
  }

  /** Markers of a chat are asked for in increasing order. */
  ghost predicate InOrder(worlds: seq<World>, events: seq<Event>)
    requires |worlds| == |events| + 1
  {
    forall i, n | 0 <= i < |events| && events[i].MarkRead? && (events[i].chatId, n) in worlds[i].asked ::
      n <= events[i].messageId
  }

  /** The last marker taken is the newest asked for, and what was sent is no newer. */
  ghost predicate TakenIsNewest(s: Markers, asked: set<Marker>, taken: map<ChatId, MessageId>, c: ChatId) {
    && (c in s.sent ==> c in taken && s.sent[c] <= taken[c])
    && (forall n | (c, n) in asked :: c in taken && n <= taken[c])
    && (c in taken ==> (c, taken[c]) in asked)
  }

  ghost predicate TakenIsNewestIn(w: World, c: ChatId) { TakenIsNewest(w.markers, w.asked, w.taken, c) }

  lemma SweepKeepsOrder(w: World, order: seq<ChatId>, c: ChatId)
    requires ChatSound(w.markers, TallyOf(w), c) && TakenIsNewestIn(w, c) && Enabled(w, Ready(order))
    ensures TakenIsNewestIn(Next(w, Ready(order)), c)
  {
    SweepSends(w.markers, order, w.now, c);
  }

  /** A sweep sends nothing but what waits. */
  lemma {:induction false} SweepSends(s: Markers, order: seq<ChatId>, now: int, c: ChatId)
    ensures var t := FlushedAll(s, order, now);
            && (c in t.sent ==> (c in s.sent && t.sent[c] == s.sent[c]) || IsPending(s, c, t.sent[c]))
            && (c in t.pending ==> IsPending(s, c, t.pending[c]))
  {
    if order != [] {
      SweepSends(s, order[..|order| - 1], now, c);
    }
  }

  lemma NextKeepsOrder(w: World, e: Event, c: ChatId)
    requires ChatSound(w.markers, TallyOf(w), c) && TakenIsNewestIn(w, c) && Enabled(w, e)
    requires e.MarkRead? && e.chatId == c ==> forall n | (c, n) in w.asked :: n <= e.messageId
    ensures TakenIsNewestIn(Next(w, e), c)
  {
    if e.Ready? {
      SweepKeepsOrder(w, e.order, c);
    }
  }

  lemma {:induction false} OrderIsKept(worlds: seq<World>, events: seq<Event>, k: nat, c: ChatId)
    requires IsRun(worlds, events) && InOrder(worlds, events) && k < |worlds|
    ensures TakenIsNewestIn(worlds[k], c)
  {
    if k > 0 {
      OrderIsKept(worlds, events, k - 1, c);
      RunIsSound(worlds, events, k - 1);
      assert ChatSound(worlds[k - 1].markers, TallyOf(worlds[k - 1]), c);
      NextKeepsOrder(worlds[k - 1], events[k - 1], c);
    }
  }

  /** Asked for in increasing order, the newest marker of a chat since the last stop is never lost. */
  lemma NewestMarkerIsKept(worlds: seq<World>, events: seq<Event>, k: nat, c: ChatId, n: MessageId)
    requires IsRun(worlds, events) && InOrder(worlds, events) && k < |worlds| && IsNewest(worlds[k], c, n)
    ensures var w := worlds[k];
            (IsKept(w.markers, n, w.confirmed, c) || (c, n) in w.refused) && (c, n) !in w.lost
  {
    OrderIsKept(worlds, events, k, c);
    LastMarkerIsKept(worlds, events, k, c);
    EveryMarkerIsAccounted(worlds, events, k, c, n);
  }

  // ----- Markers asked for out of order -----

  lemma Extend(worlds: seq<World>, events: seq<Event>, e: Event) returns (more: seq<World>, done: seq<Event>)
    requires IsRun(worlds, events) && Enabled(worlds[|events|], e)
    ensures IsRun(more, done) && more[|done|] == Next(worlds[|events|], e) && done == events + [e]
  {
    more, done := worlds + [Next(worlds[|events|], e)], events + [e];
    assert more[0] == worlds[0] && more[|events|] == worlds[|events|] && done[|events|] == e;
    forall i | 0 <= i < |done| ensures Enabled(more[i], done[i]) && more[i + 1] == Next(more[i], done[i]) {
      if i < |events| {
        assert more[i] == worlds[i] && more[i + 1] == worlds[i + 1] && done[i] == events[i];
      }
    }
  }

  /** The newest marker asked for is gone: neither kept nor refused. */
  ghost predicate NewestIsLost(w: World, c: ChatId, n: MessageId) {
    IsNewest(w, c, n) && !IsKept(w.markers, n, w.confirmed, c) && (c, n) !in w.refused
  }

  /** Connected, and the chat's first marker is out. */
  lemma RunToFirst(m: MessageId) returns (worlds: seq<World>, events: seq<Event>)
    ensures IsRun(worlds, events) && events == [Connect, MarkRead(0, m)]
    ensures worlds[|events|] ==
            World(Markers(map[], map[0 := READ_THROTTLE_MS], map[0 := m], map[0 := m], true, [Emit(0, m, 0)]), 0,
                  {(0, m)}, map[0 := m], {}, {}, {}, false, 0)
  {
    worlds, events := [World0], [];
    worlds, events := Extend(worlds, events, Connect);
    worlds, events := Extend(worlds, events, MarkRead(0, m));
  }

  /** While a marker waits behind the throttle, the reader scrolls up: an older one takes its place. */
  lemma OlderMarkerReplacesNewer() returns (worlds: seq<World>, events: seq<Event>)
    ensures IsRun(worlds, events) && events == [Connect, MarkRead(0, 9), MarkRead(0, 10), MarkRead(0, 8)]
    ensures NewestIsLost(worlds[|events|], 0, 10)
  {
    worlds, events := RunToFirst(9);
    worlds, events := Extend(worlds, events, MarkRead(0, 10));
    worlds, events := Extend(worlds, events, MarkRead(0, 8));
  }

  /** A marker is out, an older one waits behind it. */
  lemma RunToOlderWaiting() returns (worlds: seq<World>, events: seq<Event>)
    ensures IsRun(worlds, events) && events == [Connect, MarkRead(0, 10), MarkRead(0, 8)]
    ensures worlds[|events|] ==
            World(Markers(map[0 := 8], map[0 := READ_THROTTLE_MS], map[0 := 10], map[0 := 10], true, [Emit(0, 10, 0)]), 0,
                  {(0, 10), (0, 8)}, map[0 := 8], {}, {}, {}, false, 0)
  {
    worlds, events := RunToFirst(10);
    worlds, events := Extend(worlds, events, MarkRead(0, 8));
  }

  /** Even the marker asked for last can be lost: skipped as already sent, it is overwritten before its answer. */
  lemma SkippedMarkerIsOverwritten() returns (worlds: seq<World>, events: seq<Event>)
    ensures IsRun(worlds, events)
    ensures events == [Connect, MarkRead(0, 10), MarkRead(0, 8), MarkRead(0, 10), Wait(1000), Timer(0)]
    ensures NewestIsLost(worlds[|events|], 0, 10)
  {
    worlds, events := RunToOlderWaiting();
    worlds, events := Extend(worlds, events, MarkRead(0, 10));
    worlds, events := Extend(worlds, events, Wait(1000));
    worlds, events := Extend(worlds, events, Timer(0));
  }

  /** On a new connection an older marker that waits comes before a newer one without an answer. */
  lemma ReconnectDropsTheAwaited() returns (worlds: seq<World>, events: seq<Event>)
    ensures IsRun(worlds, events) && events == [Connect, MarkRead(0, 10), MarkRead(0, 8), Disconnect, Connect]
    ensures NewestIsLost(worlds[|events|], 0, 10)
  {
    worlds, events := RunToOlderWaiting();
    worlds, events := Extend(worlds, events, Disconnect);
    worlds, events := Extend(worlds, events, Connect);
  }

  // ----- The throttle and refusals -----

  /** Two emits of a chat with no stop between them are a throttle window apart. */
  lemma OneEmitPerWindow(worlds: seq<World>, events: seq<Event>, k: nat, i: nat, j: nat)
    requires IsRun(worlds, events) && k < |worlds|
    requires worlds[k].since <= i < j < |worlds[k].markers.emits|
    requires worlds[k].markers.emits[i].chatId == worlds[k].markers.emits[j].chatId
    ensures worlds[k].markers.emits[i].at + READ_THROTTLE_MS <= worlds[k].markers.emits[j].at
  {
    RunIsSound(worlds, events, k);
  }

  /** The timer ends the throttle window of an emit of its chat. */
  ghost predicate EndsAWindow(s: Markers, since: nat, now: int, c: ChatId) {
    c in s.timers ==> exists i :: EmitsWindow(s, since, now, c, i)
  }

  predicate EmitsWindow(s: Markers, since: nat, now: int, c: ChatId, i: int) {
    && since <= i < |s.emits| && s.emits[i].chatId == c && s.emits[i].at <= now
    && c in s.timers && s.timers[c] == s.emits[i].at + 1000
  }

  lemma QueueingTimes(s: Markers, t: Markers, since: nat, now: int, later: int, c: ChatId)
    requires EndsAWindow(s, since, now, c) && t.emits == s.emits && now <= later
    requires c in t.timers ==> c in s.timers && t.timers[c] == s.timers[c]
    ensures EndsAWindow(t, since, later, c)
  {
    if c in t.timers {
      var i :| EmitsWindow(s, since, now, c, i);
      assert EmitsWindow(t, since, later, c, i);
    }
  }

  lemma FlushTimes(s: Markers, c: ChatId, now: int, since: nat, d: ChatId)
    requires EndsAWindow(s, since, now, d) && since <= |s.emits|
    ensures EndsAWindow(Flushed(s, c, now), since, now, d) && since <= |Flushed(s, c, now).emits|
  {
    var t := Flushed(s, c, now);
    if d in t.timers {
      if t.emits != s.emits && d == c {
        assert EmitsWindow(t, since, now, d, |s.emits|);
      } else {
        var i :| EmitsWindow(s, since, now, d, i);
        assert EmitsWindow(t, since, now, d, i);
      }
    }
  }

  lemma {:induction false} SweepTimes(s: Markers, order: seq<ChatId>, now: int, since: nat, d: ChatId)
    requires EndsAWindow(s, since, now, d) && since <= |s.emits|
    ensures EndsAWindow(FlushedAll(s, order, now), since, now, d) && since <= |FlushedAll(s, order, now).emits|
  {
    if order != [] {
      SweepTimes(s, order[..|order| - 1], now, since, d);
      FlushTimes(FlushedAll(s, order[..|order| - 1], now), order[|order| - 1], now, since, d);
    }
  }

  ghost predicate TimesSound(w: World, c: ChatId) {
    w.since <= |w.markers.emits| && EndsAWindow(w.markers, w.since, w.now, c)
  }

  lemma NextTimes(w: World, e: Event, c: ChatId)
    requires TimesSound(w, c)
    ensures TimesSound(Next(w, e), c)
  {
    var s := w.markers;
    match e
    case MarkRead(d, m) =>
      QueueingTimes(s, s.(pending := s.pending[d := m]), w.since, w.now, w.now, c);
      FlushTimes(s.(pending := s.pending[d := m]), d, w.now, w.since, c);
    case Timer(d) =>
      QueueingTimes(s, s.(timers := s.timers - {d}), w.since, w.now, w.now, c);
      FlushTimes(s.(timers := s.timers - {d}), d, w.now, w.since, c);
    case Ready(order) => SweepTimes(s, order, w.now, w.since, c);
    case Stop =>
    case _ => QueueingTimes(s, Next(w, e).markers, w.since, w.now, Next(w, e).now, c);
  }

  /**
   * Over every run, a throttle timer ends one second after an emit of its chat since the last stop: it never
   * holds a marker back for longer than that.
   */
  lemma {:induction false} TimersEndWithTheWindow(worlds: seq<World>, events: seq<Event>, k: nat, c: ChatId)
    requires IsRun(worlds, events) && k < |worlds|
    ensures EndsAWindow(worlds[k].markers, worlds[k].since, worlds[k].now, c)
    ensures worlds[k].since <= |worlds[k].markers.emits|
    ensures c in worlds[k].markers.timers ==> worlds[k].markers.timers[c] <= worlds[k].now + 1000
  {
    if k > 0 {
      TimersEndWithTheWindow(worlds, events, k - 1, c);
      NextTimes(worlds[k - 1], events[k - 1], c);
    }
  }

  // ----- Markers that are not sent again -----

  /** The event sends another marker of the chat. */
  ghost predicate SendsAnother(s: Markers, t: Markers, c: ChatId, m: MessageId) {
    exists i :: |s.emits| <= i < |t.emits| && t.emits[i].chatId == c && t.emits[i].messageId != m
  }

  /** What lets a marker that was sent be sent again: a refusal, a stop, or a new connection before its answer. */
  predicate Frees(s: Markers, e: Event, c: ChatId, m: MessageId) {
    e == Ack(c, m, false) || e.Stop? || (e.Connect? && IsAwaited(s, c, m))
  }

  lemma FlushSends(s: Markers, c: ChatId, now: int, d: ChatId, m: MessageId)
    requires IsSkipped(s, d, m)
    ensures |s.emits| <= |Flushed(s, c, now).emits|
    ensures IsSkipped(Flushed(s, c, now), d, m) || SendsAnother(s, Flushed(s, c, now), d, m)
  {
    var t := Flushed(s, c, now);
    assert t.emits != s.emits ==> t.emits[|s.emits|] == Emit(c, s.pending[c], now);
  }

  lemma {:induction false} SweepKeepsSent(s: Markers, order: seq<ChatId>, now: int, d: ChatId, m: MessageId)
    requires IsSkipped(s, d, m)
    ensures |s.emits| <= |FlushedAll(s, order, now).emits|
    ensures IsSkipped(FlushedAll(s, order, now), d, m) || SendsAnother(s, FlushedAll(s, order, now), d, m)
  {
    if order != [] {
      var t := FlushedAll(s, order[..|order| - 1], now);
      SweepKeepsSent(s, order[..|order| - 1], now, d, m);
      if IsSkipped(t, d, m) {
        FlushSends(t, order[|order| - 1], now, d, m);
      } else {
        var i :| |s.emits| <= i < |t.emits| && t.emits[i].chatId == d && t.emits[i].messageId != m;
        assert FlushedAll(s, order, now).emits[i] == t.emits[i];
      }
    }
  }

  /** A marker sent last stays so until another one is sent, or it is free to be sent again. */
  lemma SentUntilFreed(w: World, e: Event, c: ChatId, m: MessageId)
    requires IsSkipped(w.markers, c, m) && !Frees(w.markers, e, c, m)
    ensures IsSkipped(Next(w, e).markers, c, m) || SendsAnother(w.markers, Next(w, e).markers, c, m)
  {
    var s := w.markers;
    match e
    case MarkRead(d, n) => FlushSends(s.(pending := s.pending[d := n]), d, w.now, c, m);
    case Timer(d) => FlushSends(s.(timers := s.timers - {d}), d, w.now, c, m);
    case Ready(order) => SweepKeepsSent(s, order, w.now, c, m);
    case _ =>
  }

  /**
   * Over every run: a marker that was sent, and neither refused nor overtaken by another one nor cut off from
   * its answer since, is not sent again, however often it is asked for.
   */
  lemma {:induction false} SentMarkerIsNotSentAgain(worlds: seq<World>, events: seq<Event>, j: nat, k: nat, c: ChatId,
                                                    m: MessageId)
    requires IsRun(worlds, events) && j <= k < |worlds| && IsSkipped(worlds[j].markers, c, m)
    requires forall i | j <= i < k ::
               && !Frees(worlds[i].markers, events[i], c, m)
               && !SendsAnother(worlds[i].markers, worlds[i + 1].markers, c, m)
    ensures Next(worlds[k], MarkRead(c, m)).markers == worlds[k].markers
    ensures IsSkipped(worlds[k].markers, c, m)
  {
    if j < k {
      SentMarkerIsNotSentAgain(worlds, events, j, k - 1, c, m);
      SentUntilFreed(worlds[k - 1], events[k - 1], c, m);
    }
  }

  /**
   * From a ready handled while connected to the end of that connection, every pending marker has a timer;
   * when the timer is due, its marker goes out.
   */
  lemma PendingMarkersAreTimed(worlds: seq<World>, events: seq<Event>, k: nat, c: ChatId)
    requires IsRun(worlds, events) && k < |worlds| && worlds[k].settled && c in worlds[k].markers.pending
    ensures c in worlds[k].markers.timers
    ensures var s := worlds[k].markers;
            var m := s.pending[c];
            var t := TimerFired(s, c, worlds[k].now);
            c !in t.pending && t.emits == s.emits + [Emit(c, m, worlds[k].now)]
  {
    RunIsSound(worlds, events, k);
    assert ChatSound(worlds[k].markers, TallyOf(worlds[k]), c);
  }

  /** A refused marker may be asked for again: it waits, or goes out at once. */
  lemma RefusedMarkerIsSentAgain(s: Markers, c: ChatId, m: MessageId, now: int)
    ensures var t := Marked(Acked(s, c, m, false), c, m, now);
            if c in s.timers || !s.connected then c in t.pending && t.pending[c] == m
            else t.emits == s.emits + [Emit(c, m, now)] && c in t.unacked && t.unacked[c] == m
  {
  }
}
