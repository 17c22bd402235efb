/**
 * What a load leaves of the thread it belongs to: when it ends, which failures stay on show, in which order the
 * messages stand, which loads may start, and what becomes of a reload that was owed.
 */
module ThreadStates {
  import opened Options
  import opened ThreadWindow
  import opened ThreadTheorems

  // ----- Loads end -----

  /** A thread that is loading waits for a request of that kind which is under way. */
  ghost predicate WaitsForItsLoad(w: World) {
    HasThread(w.client) && Open(w.client).loading != NotLoading ==>
      var id := Open(w.client).requestId;
      id in w.requests && Loads(w.requests[id].kind) == Open(w.client).loading
  }

  function Loads(kind: Kind): Loading {
    match kind
    case Latest => WindowLoad
    case Around => WindowLoad
    case Older(_) => OlderLoad
    case Newer(_) => NewerLoad
  }

  lemma StartWaits(w: World, c: ChatId, around: bool)
    requires w.client.currentChatId == Some(c)
    ensures WaitsForItsLoad(WithWindow(w, c, around))
  {
  }

  lemma EdgeWaits(w: World, older: bool)
    requires WaitsForItsLoad(w) && w.client.currentChatId.Some?
    ensures WaitsForItsLoad(WithEdge(w, w.client.currentChatId.value, older))
  {
  }

  lemma AnswerWaits(w: World, id: nat, lo: nat, hi: nat, snapshot: nat)
    requires Sound(w) && WaitsForItsLoad(w) && Enabled(w, Answer(id, lo, hi, snapshot))
    ensures WaitsForItsLoad(Answered(w, id, lo, hi, snapshot))
  {
  }

  lemma FailureWaits(w: World, id: nat, gone: bool)
    requires Sound(w) && WaitsForItsLoad(w) && id in w.requests
    ensures WaitsForItsLoad(Failed(w, id, gone))
  {
  }

  lemma NextWaits(w: World, e: Event)
    requires Sound(w) && WaitsForItsLoad(w) && Enabled(w, e)
    ensures WaitsForItsLoad(Next(w, e))
  {
    match e
    case Select(c, around) => StartWaits(w.(client := Opened(w.client, c), delivered := {}, dropped := {}), c, around);
    case Reopen(around) => StartWaits(Reopened(w), w.client.currentChatId.value, around);
    case PayOwed(around) =>
      StartWaits(w.(client := OwedPaid(w.client, w.client.currentChatId.value)), w.client.currentChatId.value, around);
    case LoadEdge(older) => EdgeWaits(w, older);
    case Answer(id, lo, hi, snapshot) => AnswerWaits(w, id, lo, hi, snapshot);
    case Fail(id, gone) => FailureWaits(w, id, gone);
    case _ =>
  }

  /**
   * Over every run: no load hangs. A thread that shows a load waits for a request of that kind under way, and
   * the end of that request, whatever it is, ends the load, or leaves no thread where there was nothing to keep.
   */
  lemma {:induction false} LoadsEnd(worlds: seq<World>, events: seq<Event>, k: nat)
    requires IsRun(worlds, events) && k < |worlds|
    ensures WaitsForItsLoad(worlds[k])
  {
    if k > 0 {
      LoadsEnd(worlds, events, k - 1);
      RunIsSound(worlds, events, k - 1);
      NextWaits(worlds[k - 1], events[k - 1]);
    }
  }

  predicate Ends(e: Event, id: nat) { (e.Answer? || e.Fail?) && e.id == id }

  /** The window load failed with nothing to keep. */
  predicate LeavesNothing(w: World, e: Event) {
    e.Fail? && e.id in w.requests && IsWindow(w.requests[e.id].kind) && !IsHeld(w.requests[e.id].state)
  }

  lemma AwaitedLoadEnds(w: World, e: Event, id: nat)
    requires Awaited(w, id) && Enabled(w, e) && Ends(e, id)
    ensures var s, t := w.client, Next(w, e).client;
            && t.currentChatId == s.currentChatId
            && (HasThread(t) <==> !LeavesNothing(w, e))
            && (HasThread(t) ==> Open(t).loading.NotLoading?)
  {
    AwaitedIsSound(w, id);
  }

  /** The end of any other request changes nothing. */
  lemma OnlyTheAwaitedCounts(w: World, e: Event, id: nat)
    requires id in w.requests && Enabled(w, e) && Ends(e, id) && !IsRequest(w.client, w.requests[id].chat, id)
    ensures Next(w, e).client == w.client
  {
  }

  // ----- Failures on show -----

  /** How a thread's load ended, if the event is its end. */
  datatype End =
    | Other
    | Shown | ShownOlder | ShownNewer
    | FailedOlder | FailedNewer | FailedWindow(before: Thread, gone: bool)

  function EndOf(w: World, e: Event): End
    requires Enabled(w, e)
  {
    if !(e.Answer? || e.Fail?) || !IsRequest(w.client, w.requests[e.id].chat, e.id) then Other
    else
      var r := w.requests[e.id];
      match r.kind
      case Older(_) => if e.Answer? then ShownOlder else FailedOlder
      case Newer(_) => if e.Answer? then ShownNewer else FailedNewer
      case _ => if e.Answer? then Shown else if r.state.Some? then FailedWindow(r.state.value, e.gone) else Other
  }

  /** The event asks for a window, over the one on show. */
  predicate StartsWindow(w: World, e: Event)
    requires HasThread(w.client)
  {
    match e
    case Reopen(_) => true
    case Reload(_) => true
    case PayOwed(_) => CanReload(w.client, w.client.currentChatId.value)
    case JumpToLatest => true
    case AfterGone => true
    case _ => false
  }

  predicate Stays(w: World, e: Event)
    requires Enabled(w, e)
  {
    HasThread(w.client) && HasThread(Next(w, e).client) && Next(w, e).client.currentChatId == w.client.currentChatId
  }

  /** The failures that a thread shows: of the last load of older messages, of newer ones, and of the window. */
  predicate ShowsFailures(t: Thread, u: Thread, starts: bool, end: End) {
    && u.error == (if end.FailedOlder? then true
                   else if starts || end.Shown? || end.ShownOlder? then false
                   else if end.FailedWindow? then end.before.error else t.error)
    && u.newerError == (if end.FailedNewer? then true
                        else if starts || end.Shown? || end.ShownNewer? then false
                        else if end.FailedWindow? then end.before.newerError else t.newerError)
    && u.windowError == (if end.Shown? then false
                         else if end.FailedWindow? then !end.gone || end.before.windowError else t.windowError)
  }

  lemma AnswerShowsFailures(w: World, e: Event)
    requires Sound(w) && Enabled(w, e) && e.Answer? && Stays(w, e)
    ensures ShowsFailures(Open(w.client), Open(Next(w, e).client), false, EndOf(w, e))
  {
  }

  lemma EdgeFailureShows(w: World, e: Event)
    requires Sound(w) && Enabled(w, e) && e.Fail? && Stays(w, e) && !IsWindow(w.requests[e.id].kind)
    ensures ShowsFailures(Open(w.client), Open(Next(w, e).client), false, EndOf(w, e))
  {
  }

  lemma WindowFailureShows(w: World, e: Event)
    requires Sound(w) && Enabled(w, e) && e.Fail? && Stays(w, e) && IsWindow(w.requests[e.id].kind)
    ensures ShowsFailures(Open(w.client), Open(Next(w, e).client), false, EndOf(w, e))
  {
  }

  /** Which failures a thread shows after an event, by what the event starts or ends. */
  lemma FailuresOnShow(w: World, e: Event)
    requires Sound(w) && Enabled(w, e) && Stays(w, e) && !e.Select?
    ensures ShowsFailures(Open(w.client), Open(Next(w, e).client), StartsWindow(w, e), EndOf(w, e))
  {
    if e.Answer? {
      AnswerShowsFailures(w, e);
    } else if e.Fail? {
      if IsWindow(w.requests[e.id].kind) {
        WindowFailureShows(w, e);
      } else {
        EdgeFailureShows(w, e);
      }
    }
  }

  // ----- The order of the messages -----

  predicate Ascending(ms: seq<MessageId>) { forall i, j | 0 <= i < j < |ms| :: ms[i] < ms[j] }

  lemma {:induction false} PageAscends(log: Log, lo: nat, hi: nat)
    requires lo <= hi <= |log|
    ensures Ascending(PageMessages(Rows(log, lo, hi)))
  {
    if lo < hi {
      var init, last := Rows(log, lo, hi - 1), Row(hi - 1, log[hi - 1]);
      PageAscends(log, lo, hi - 1);
      assert (init + [last])[..|init|] == init;
      forall i | 0 <= i < |PageMessages(init)| ensures PageMessages(init)[i] < hi - 1 {
        PageHolds(log, lo, hi - 1, PageMessages(init)[i]);
      }
    }
  }

  lemma {:induction false} WithoutAscends(ms: seq<MessageId>, held: seq<MessageId>)
    requires Ascending(ms)
    ensures Ascending(Without(ms, held))
  {
    if ms != [] {
      var init := ms[..|ms| - 1];
      WithoutAscends(init, held);
      forall i | 0 <= i < |Without(init, held)| ensures Without(init, held)[i] < ms[|ms| - 1] {
        WithoutHolds(init, held, Without(init, held)[i]);
      }
    }
  }

  lemma PageRest(log: Log, lo: nat, hi: nat, held: seq<MessageId>)
    requires lo <= hi <= |log|
    ensures var rest := Without(PageMessages(Rows(log, lo, hi)), held);
            Ascending(rest) && forall i | 0 <= i < |rest| :: lo <= rest[i] < hi
  {
    var page := PageMessages(Rows(log, lo, hi));
    var rest := Without(page, held);
    PageAscends(log, lo, hi);
    WithoutAscends(page, held);
    forall i | 0 <= i < |rest| ensures lo <= rest[i] < hi {
      WithoutHolds(page, held, rest[i]);
      PageHolds(log, lo, hi, rest[i]);
    }
  }

  /** Some of `ms`, in the same order: the k-th of them that is not held stands behind those before it. */
  predicate IsRest(rest: seq<MessageId>, ms: seq<MessageId>, held: seq<MessageId>) {
    forall k | 0 <= k < |ms| && ms[k] !in held ::
      |Without(ms[..k], held)| < |rest| && rest[|Without(ms[..k], held)|] == ms[k]
  }

  lemma {:induction false} RestAt(ms: seq<MessageId>, held: seq<MessageId>, k: nat)
    requires k < |ms| && ms[k] !in held
    ensures |Without(ms[..k], held)| < |Without(ms, held)| && Without(ms, held)[|Without(ms[..k], held)|] == ms[k]
  {
    var n := |ms| - 1;
    if k < n {
      RestAt(ms[..n], held, k);
      assert ms[..n][..k] == ms[..k];
    }
  }

  lemma WithoutKeepsOrder(ms: seq<MessageId>, held: seq<MessageId>)
    ensures IsRest(Without(ms, held), ms, held)
  {
    forall k | 0 <= k < |ms| && ms[k] !in held
      ensures |Without(ms[..k], held)| < |Without(ms, held)| && Without(ms, held)[|Without(ms[..k], held)|] == ms[k]
    {
      RestAt(ms, held, k);
    }
  }

  /** The parked messages behind the first `n`: those that are not among these, in the order they came. */
  ghost predicate ParkedBehind(all: seq<MessageId>, n: nat, parked: seq<MessageId>) {
    && n <= |all| && IsRest(all[n..], parked, all[..n])
    && forall m: MessageId :: m in all[n..] <==> m in parked && m !in all[..n]
  }

  lemma ExtendedParksBehind(messages: seq<MessageId>, parked: seq<MessageId>)
    ensures messages <= Extended(messages, parked) && ParkedBehind(Extended(messages, parked), |messages|, parked)
  {
    var all := Extended(messages, parked);
    assert all[..|messages|] == messages && all[|messages|..] == Without(parked, messages);
    WithoutKeepsOrder(parked, messages);
    forall m: MessageId ensures m in all[|messages|..] <==> m in parked && m !in messages {
      WithoutHolds(parked, messages, m);
    }
  }

  /** The messages that a load puts behind, its rows and then the parked ones, when it reaches the newest message. */
  ghost predicate GoesBehind(u: Thread, n: nat, parked: seq<MessageId>, newest: Option<MessageId>) {
    if u.hasMoreNewer then |u.messages| == n && u.newestId == newest
    else ParkedBehind(u.messages, n, parked)
         && u.newestId == if n < |u.messages| then Some(u.messages[|u.messages| - 1]) else newest
  }

  /** A pushed message goes behind the others, in the window or among the parked ones, never both. */
  lemma PushedGoesBehind(w: World, c: ChatId, m: MessageId, isNew: bool)
    requires HasThread(w.client) && Enabled(w, Deliver(c, m, isNew))
    ensures var s, v := w.client, Next(w, Deliver(c, m, isNew)).client;
            && HasThread(v) && v.currentChatId == s.currentChatId
            && var t, u := Open(s), Open(v);
               && (u == t || (u == t.(messages := t.messages + [m], newestId := Some(m)) && m !in t.messages))
               && v.pendingLive == s.pendingLive + (if IsParking(t) && v != s then [m] else [])
               && (u == t || !IsParking(t))
  {
  }

  /** The rows of a window stand in the chat's order, and behind them what came while it loaded. */
  lemma WindowStandsInOrder(w: World, id: nat, lo: nat, hi: nat, snapshot: nat) returns (n: nat)
    requires Awaited(w, id) && IsWindow(w.requests[id].kind) && Enabled(w, Answer(id, lo, hi, snapshot))
    ensures var u := Next(w, Answer(id, lo, hi, snapshot)).client.threads[w.requests[id].chat];
            && n <= |u.messages| && Ascending(u.messages[..n])
            && (u.hasMoreNewer <==> w.requests[id].kind.Around? && hi < snapshot)
            && GoesBehind(u, n, w.client.pendingLive, if lo < hi then Some((hi - 1) as MessageId) else None)
  {
    var rows := Rows(LogOf(w, w.requests[id].chat), lo, hi);
    EndsOf(LogOf(w, w.requests[id].chat), lo, hi);
    PageAscends(LogOf(w, w.requests[id].chat), lo, hi);
    n := |PageMessages(rows)|;
    ExtendedParksBehind(PageMessages(rows), w.client.pendingLive);
  }

  /** Older rows go in front, in the chat's order, and nothing else moves. */
  lemma OlderGoInFront(w: World, id: nat, lo: nat, hi: nat, snapshot: nat) returns (n: nat)
    requires Awaited(w, id) && w.requests[id].kind.Older? && Enabled(w, Answer(id, lo, hi, snapshot))
    ensures var t, u := w.client.threads[w.requests[id].chat],
                        Next(w, Answer(id, lo, hi, snapshot)).client.threads[w.requests[id].chat];
            && n <= |u.messages| && u.messages[n..] == t.messages && Ascending(u.messages[..n])
            && (forall i | 0 <= i < n :: u.messages[i] < t.oldestId.GetOr(0))
            && u.newestId == t.newestId && u.hasMoreNewer == t.hasMoreNewer
  {
    AwaitedIsSound(w, id);
    var c := w.requests[id].chat;
    var rest := Without(PageMessages(Rows(LogOf(w, c), lo, hi)), w.client.threads[c].messages);
    PageRest(LogOf(w, c), lo, hi, w.client.threads[c].messages);
    n := |rest|;
    var u := Next(w, Answer(id, lo, hi, snapshot)).client.threads[c];
    assert u.messages == rest + w.client.threads[c].messages;
    assert u.messages[..n] == rest;
  }

  function NewerRest(w: World, c: ChatId, lo: nat, hi: nat): seq<MessageId>
    requires c in w.client.threads && lo <= hi <= |LogOf(w, c)|
  {
    Without(PageMessages(Rows(LogOf(w, c), lo, hi)), w.client.threads[c].messages)
  }

  lemma NewerWindow(w: World, id: nat, lo: nat, hi: nat, snapshot: nat)
    requires Awaited(w, id) && w.requests[id].kind.Newer? && Enabled(w, Answer(id, lo, hi, snapshot))
    ensures var c := w.requests[id].chat;
            var t, u := w.client.threads[c], Next(w, Answer(id, lo, hi, snapshot)).client.threads[c];
            var messages := t.messages + NewerRest(w, c, lo, hi);
            var newest := if lo < hi then Some((hi - 1) as MessageId) else t.newestId;
            && u.messages == (if hi < snapshot then messages else Extended(messages, w.client.pendingLive))
            && u.newestId == (if hi < snapshot then newest else ExtendedNewest(messages, newest, w.client.pendingLive))
            && (u.hasMoreNewer <==> hi < snapshot) && u.oldestId == t.oldestId && u.hasMore == t.hasMore
  {
    AwaitedIsSound(w, id);
    EndsOf(LogOf(w, w.requests[id].chat), lo, hi);
  }

  lemma NewerBehind(u: Thread, held: seq<MessageId>, rest: seq<MessageId>, parked: seq<MessageId>,
                    newest: Option<MessageId>)
    requires u.messages == (if u.hasMoreNewer then held + rest else Extended(held + rest, parked))
    requires u.newestId == (if u.hasMoreNewer then newest else ExtendedNewest(held + rest, newest, parked))
    ensures |held| + |rest| <= |u.messages| && u.messages[..|held|] == held
    ensures u.messages[|held|..|held| + |rest|] == rest
    ensures GoesBehind(u, |held| + |rest|, parked, newest)
  {
    ExtendedParksBehind(held + rest, parked);
    assert u.messages[..|held + rest|] == held + rest;
  }

  /** Newer rows go behind, in the chat's order, and behind them the parked ones at the newest message. */
  lemma NewerGoBehind(w: World, id: nat, lo: nat, hi: nat, snapshot: nat) returns (n: nat)
    requires Awaited(w, id) && w.requests[id].kind.Newer? && Enabled(w, Answer(id, lo, hi, snapshot))
    ensures var t, u := w.client.threads[w.requests[id].chat],
                        Next(w, Answer(id, lo, hi, snapshot)).client.threads[w.requests[id].chat];
            && |t.messages| <= n <= |u.messages| && u.messages[..|t.messages|] == t.messages
            && Ascending(u.messages[|t.messages|..n]) && u.oldestId == t.oldestId && u.hasMore == t.hasMore
            && (u.hasMoreNewer <==> hi < snapshot)
            && GoesBehind(u, n, w.client.pendingLive, if lo < hi then Some((hi - 1) as MessageId) else t.newestId)
  {
    var c := w.requests[id].chat;
    var held, rest := w.client.threads[c].messages, NewerRest(w, c, lo, hi);
    NewerWindow(w, id, lo, hi, snapshot);
    PageRest(LogOf(w, c), lo, hi, held);
    n := |held| + |rest|;
    NewerBehind(Next(w, Answer(id, lo, hi, snapshot)).client.threads[c], held, rest, w.client.pendingLive,
                if lo < hi then Some((hi - 1) as MessageId) else w.client.threads[c].newestId);
  }

  /** A window whose load failed keeps its ends, and takes the parked messages when it reaches the newest. */
  lemma KeptWindowStandsInOrder(w: World, id: nat, gone: bool)
    requires Awaited(w, id) && IsWindow(w.requests[id].kind) && IsHeld(w.requests[id].state)
    ensures var t, u := w.client.threads[w.requests[id].chat], Failed(w, id, gone).client.threads[w.requests[id].chat];
            && t.messages <= u.messages && u.oldestId == t.oldestId && u.hasMore == t.hasMore
            && u.hasMoreNewer == t.hasMoreNewer && GoesBehind(u, |t.messages|, w.client.pendingLive, t.newestId)
  {
    AwaitedIsSound(w, id);
    ExtendedParksBehind(w.client.threads[w.requests[id].chat].messages, w.client.pendingLive);
  }

  // ----- Which loads may start -----

  /**
   * Over every run: older messages are asked for exactly when the window does not begin with the chat's first
   * message, newer ones exactly when there are more, and neither while anything loads.
   */
  lemma EdgesLoadExactlyWhenThereIsMore(worlds: seq<World>, events: seq<Event>, k: nat, older: bool)
    requires IsRun(worlds, events) && k < |worlds| && HasThread(worlds[k].client)
    ensures var w, t := worlds[k], Open(worlds[k].client);
            var v := Next(w, LoadEdge(older));
            var isMore := if older then t.oldestId.Some? && t.oldestId.value > 0 else t.hasMoreNewer;
            if t.loading.NotLoading? && isMore
            then Open(v.client).loading == (if older then OlderLoad else NewerLoad) && |v.requests| == |w.requests| + 1
            else v == w
  {
    RunIsSound(worlds, events, k);
    assert ThreadSound(worlds[k], worlds[k].client.currentChatId.value);
    assert worlds[k].client.requestSeq + 1 !in worlds[k].requests;
  }

  // ----- An owed reload -----

  predicate OwedIsCurrent(s: Client) { s.owedReloadChatId.Some? ==> s.owedReloadChatId == s.currentChatId }

  lemma NextOwesItsOwn(w: World, e: Event)
    requires Sound(w) && OwedIsCurrent(w.client) && Enabled(w, e)
    ensures OwedIsCurrent(Next(w, e).client)
  {
  }

  /** Over every run, a reload is only ever owed to the chat that is open. */
  lemma {:induction false} ReloadIsOwedToTheOpenChat(worlds: seq<World>, events: seq<Event>, k: nat)
    requires IsRun(worlds, events) && k < |worlds|
    ensures OwedIsCurrent(worlds[k].client)
  {
    if k > 0 {
      ReloadIsOwedToTheOpenChat(worlds, events, k - 1);
      RunIsSound(worlds, events, k - 1);
      NextOwesItsOwn(worlds[k - 1], events[k - 1]);
    }
  }

  /** The window load that the open chat waits for failed for good: it is not followed by another. */
  predicate FailsForGood(w: World, e: Event) {
    e.Fail? && !e.gone && e.id in w.requests && IsWindow(w.requests[e.id].kind)
    && IsRequest(w.client, w.requests[e.id].chat, e.id)
  }

  /**
   * One event: a reload is owed after it exactly when it comes during a window load, or was owed and is neither
   * paid, nor given up with a load that fails for good, nor the chat left.
   */
  lemma OwedUntilPaid(w: World, e: Event)
    requires Sound(w) && OwedIsCurrent(w.client) && Enabled(w, e)
    ensures Next(w, e).client.owedReloadChatId.Some? <==>
            || e.OweReload?
            || (w.client.owedReloadChatId.Some? && !e.PayOwed? && !FailsForGood(w, e) && !e.Leave?
                && !(e.Select? && Some(e.chat) != w.client.currentChatId))
  {
  }

  /** Paid, it asks for the window again, unless there is nothing to reload. */
  lemma PaidReloadStarts(w: World, around: bool)
    requires Sound(w) && Enabled(w, PayOwed(around))
    ensures var t := Next(w, PayOwed(around)).client;
            if HasThread(w.client) && Open(w.client).messages != []
            then HasThread(t) && Open(t).loading.WindowLoad? && Open(t).messages == Open(w.client).messages
            else t == w.client.(owedReloadChatId := None)
  {
  }
}
