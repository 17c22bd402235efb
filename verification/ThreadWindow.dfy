/**
 * The message window of the open WhatsApp chat (frontend/app/controllers/whatsapp.js): pages are loaded
 * from the server while messages keep arriving. Messages that arrive during a load are parked and added
 * when it ends. A message stands for its id.
 */
module ThreadWindow {
  import opened Options

  type ChatId = nat
  type MessageId = nat

  datatype Loading = NotLoading | WindowLoad | OlderLoad | NewerLoad

  datatype Thread = Thread(messages: seq<MessageId>, oldestId: Option<MessageId>, newestId: Option<MessageId>,
                           hasMore: bool, hasMoreNewer: bool, requestId: nat, loading: Loading,
                           error: bool, newerError: bool, windowError: bool)

  datatype Client = Client(currentChatId: Option<ChatId>, threads: map<ChatId, Thread>, pendingLive: seq<MessageId>,
                           requestSeq: nat, owedReloadChatId: Option<ChatId>)

  /** A row of a page; only rows with something to show become messages. */
  datatype Row = Row(id: MessageId, shown: bool)

  /** The answer to a page request: rows, oldest first, and whether there is more on either side. */
  datatype Page = Page(raw: seq<Row>, moreOlder: bool, moreNewer: bool)

  const Client0: Client := Client(None, map[], [], 0, None)
  const NoThread: Thread := Thread([], None, None, false, false, 0, NotLoading, false, false, false)

  // ----- Pages and parked messages -----

  function PageMessages(raw: seq<Row>): seq<MessageId> {
    if raw == [] then []
    else
      var last := raw[|raw| - 1];
      PageMessages(raw[..|raw| - 1]) + if last.shown then [last.id] else []
  }

  /** The messages of `ms` that `held` does not have yet. */
  function Without(ms: seq<MessageId>, held: seq<MessageId>): seq<MessageId> {
    if ms == [] then []
    else
      var last := ms[|ms| - 1];
      Without(ms[..|ms| - 1], held) + if last in held then [] else [last]
  }

  function FirstId(raw: seq<Row>): Option<MessageId> { if raw == [] then None else Some(raw[0].id) }

  function LastId(raw: seq<Row>): Option<MessageId> { if raw == [] then None else Some(raw[|raw| - 1].id) }

  function Or(a: Option<MessageId>, b: Option<MessageId>): Option<MessageId> { if a.Some? then a else b }

  /** The messages with the parked ones behind them. */
  function Extended(messages: seq<MessageId>, pending: seq<MessageId>): seq<MessageId> {
    messages + Without(pending, messages)
  }

  function ExtendedNewest(messages: seq<MessageId>, newestId: Option<MessageId>,
                          pending: seq<MessageId>): Option<MessageId> {
    var extra := Without(pending, messages);
    if extra == [] then newestId else Some(extra[|extra| - 1])
  }

  // ----- The client's steps -----

  function ThreadOf(s: Client, c: ChatId): Option<Thread> { if c in s.threads then Some(s.threads[c]) else None }

  predicate IsRequest(s: Client, c: ChatId, requestId: nat) { c in s.threads && s.threads[c].requestId == requestId }

  function WindowStarted(s: Client, c: ChatId): Client {
    var state := if c in s.threads then s.threads[c] else NoThread;
    s.(requestSeq := s.requestSeq + 1,
       pendingLive := if s.currentChatId == Some(c) then [] else s.pendingLive,
       threads := s.threads[c := state.(requestId := s.requestSeq + 1, loading := WindowLoad, error := false, newerError := false)])
  }

  function WindowAnswered(s: Client, c: ChatId, requestId: nat, around: bool, page: Page): Client {
    if !IsRequest(s, c, requestId) then s
    else
      var got := page.raw != [];
      var hasMoreNewer := around && got && page.moreNewer;
      var messages := PageMessages(page.raw);
      s.(pendingLive := if hasMoreNewer then s.pendingLive else [],
         threads := s.threads[c := Thread(
           if hasMoreNewer then messages else Extended(messages, s.pendingLive),
           FirstId(page.raw),
           if hasMoreNewer then LastId(page.raw) else ExtendedNewest(messages, LastId(page.raw), s.pendingLive),
           got && page.moreOlder, hasMoreNewer, requestId, NotLoading, false, false, false)])
  }

  predicate IsHeld(state: Option<Thread>) { state.Some? && state.value.messages != [] }

  /** A failed load keeps the window that it was to replace, when that held messages. */
  function WindowFailed(s: Client, c: ChatId, requestId: nat, state: Option<Thread>, gone: bool): Client {
    if !IsRequest(s, c, requestId) then s
    else
      var owed := if !gone && s.owedReloadChatId == Some(c) then None else s.owedReloadChatId;
      if !IsHeld(state) then s.(threads := s.threads - {c}, owedReloadChatId := owed)
      else
        var messages, newer := s.threads[c].messages, state.value.hasMoreNewer;
        s.(pendingLive := if newer then s.pendingLive else [],
           owedReloadChatId := owed,
           threads := s.threads[c := state.value.(
             messages := if newer then messages else Extended(messages, s.pendingLive),
             newestId := if newer then state.value.newestId else ExtendedNewest(messages, state.value.newestId, s.pendingLive),
             requestId := requestId, loading := NotLoading, windowError := !gone || state.value.windowError)])
  }

  predicate CanLoadEdge(s: Client, c: ChatId, older: bool) {
    && c in s.threads && s.threads[c].loading == NotLoading
    && if older then s.threads[c].hasMore && s.threads[c].oldestId.Some?
       else s.threads[c].hasMoreNewer && s.threads[c].newestId.Some?
  }

  function EdgeStarted(s: Client, c: ChatId, older: bool): Client {
    if !CanLoadEdge(s, c, older) then s
    else
      s.(requestSeq := s.requestSeq + 1,
         pendingLive := if !older && s.currentChatId == Some(c) then [] else s.pendingLive,
         threads := s.threads[c := s.threads[c].(requestId := s.requestSeq + 1,
                                                 loading := if older then OlderLoad else NewerLoad)])
  }

  function EdgeAnswered(s: Client, c: ChatId, requestId: nat, older: bool, page: Page): Client {
    if !IsRequest(s, c, requestId) then s
    else
      var t := s.threads[c];
      var got := page.raw != [];
      var unseen := Without(PageMessages(page.raw), t.messages);
      if older then
        s.(threads := s.threads[c := t.(messages := unseen + t.messages, oldestId := Or(FirstId(page.raw), t.oldestId),
                                        hasMore := got && page.moreOlder, error := false, loading := NotLoading)])
      else
        var hasMoreNewer := got && page.moreNewer;
        var messages, newestId := t.messages + unseen, Or(LastId(page.raw), t.newestId);
        s.(pendingLive := if hasMoreNewer then s.pendingLive else [],
           threads := s.threads[c := t.(
             messages := if hasMoreNewer then messages else Extended(messages, s.pendingLive),
             newestId := if hasMoreNewer then newestId else ExtendedNewest(messages, newestId, s.pendingLive),
             hasMoreNewer := hasMoreNewer, newerError := false, loading := NotLoading)])
  }

  function EdgeFailed(s: Client, c: ChatId, requestId: nat, older: bool): Client {
    if !IsRequest(s, c, requestId) then s
    else
      var t := s.threads[c].(loading := NotLoading);
      s.(threads := s.threads[c := if older then t.(error := true) else t.(newerError := true)])
  }

  predicate IsParking(t: Thread) { t.loading.WindowLoad? || t.loading.NewerLoad? }

  /** A pushed message; `isNew` is false for an edit or a deletion. */
  function Ingested(s: Client, c: ChatId, m: MessageId, shown: bool, isNew: bool): Client {
    if !shown || s.currentChatId != Some(c) || c !in s.threads then s
    else
      var t := s.threads[c];
      if m in t.messages || !isNew then s
      else if IsParking(t) then s.(pendingLive := s.pendingLive + [m])
      else if t.hasMoreNewer then s
      else s.(threads := s.threads[c := t.(messages := t.messages + [m], newestId := Some(m))])
  }

  /** _openChat up to its load. */
  function Opened(s: Client, c: ChatId): Client {
    var left := s.currentChatId.Some? && s.currentChatId.value != c;
    s.(owedReloadChatId := if s.currentChatId != Some(c) then None else s.owedReloadChatId,
       threads := if left then s.threads - {s.currentChatId.value} else s.threads,
       pendingLive := [], currentChatId := Some(c))
  }

  /** _reloadWindow up to its load; a load under way owes the reload. */
  predicate CanReload(s: Client, c: ChatId) {
    c in s.threads && !s.threads[c].loading.WindowLoad? && s.threads[c].messages != []
  }

  function ReloadOwed(s: Client, c: ChatId): Client {
    if c in s.threads && s.threads[c].loading.WindowLoad? then s.(owedReloadChatId := Some(c)) else s
  }

  /** _payOwedReload: the owed reload is due once no load of the window is under way. */
  predicate IsDue(s: Client, c: ChatId) {
    s.owedReloadChatId == Some(c) && !(c in s.threads && s.threads[c].loading.WindowLoad?)
  }

  function OwedPaid(s: Client, c: ChatId): Client { if IsDue(s, c) then s.(owedReloadChatId := None) else s }

  function Left(s: Client): Client {
    s.(currentChatId := None, threads := map[], pendingLive := [], owedReloadChatId := None)
  }

  // ----- The controller -----

  class Threads {
    var currentChatId: Option<ChatId>
    var threads: map<ChatId, Thread>
    var pendingLive: seq<MessageId>
    var requestSeq: nat
    var owedReloadChatId: Option<ChatId>

    function Now(): Client
      reads this
    {
      Client(currentChatId, threads, pendingLive, requestSeq, owedReloadChatId)
    }

    constructor ()
      ensures Now() == Client0
    {
      currentChatId, threads, pendingLive, requestSeq, owedReloadChatId := None, map[], [], 0, None;
    }

    /** `all` is `messages` and what was parked behind them; the park is empty afterwards. */
    method WithPendingLive(messages: seq<MessageId>, newestId: Option<MessageId>)
      returns (all: seq<MessageId>, newest: Option<MessageId>)
      modifies this`pendingLive
      ensures pendingLive == []
      ensures all == Extended(messages, old(pendingLive))
              && newest == ExtendedNewest(messages, newestId, old(pendingLive))
    {
      var extra := Without(pendingLive, messages);
      pendingLive := [];
      if extra == [] {
        return messages, newestId;
      }
      return messages + extra, Some(extra[|extra| - 1]);
    }

    /** loadWindow up to the request; the state it found travels with the request. */
    method BeginWindow(c: ChatId) returns (requestId: nat, state: Option<Thread>)
      modifies this
      ensures Now() == WindowStarted(old(Now()), c)
      ensures requestId == requestSeq && state == ThreadOf(old(Now()), c)
    {
      state := ThreadOf(Now(), c);
      requestSeq := requestSeq + 1;
      requestId := requestSeq;
      if currentChatId == Some(c) {
        pendingLive := [];
      }
      var shown := if state.Some? then state.value else NoThread;
      threads := threads[c := Thread(shown.messages, shown.oldestId, shown.newestId, shown.hasMore, shown.hasMoreNewer,
                                     requestId, WindowLoad, false, false, shown.windowError)];
    }

    method OnWindow(c: ChatId, requestId: nat, around: bool, page: Page)
      modifies this
      ensures Now() == WindowAnswered(old(Now()), c, requestId, around, page)
    {
      if !IsRequest(Now(), c, requestId) {
        return;
      }
      var got := page.raw != [];
      var hasMoreNewer := around && got && page.moreNewer;
      var messages := PageMessages(page.raw);
      var newestId := LastId(page.raw);
      if !hasMoreNewer {
        messages, newestId := WithPendingLive(messages, newestId);
      }
      threads := threads[c := Thread(messages, FirstId(page.raw), newestId, got && page.moreOlder, hasMoreNewer, requestId,
                                     NotLoading, false, false, false)];
    }

    method OnWindowFailed(c: ChatId, requestId: nat, state: Option<Thread>, gone: bool)
      modifies this
      ensures Now() == WindowFailed(old(Now()), c, requestId, state, gone)
    {
      if !IsRequest(Now(), c, requestId) {
        return;
      }
      if IsHeld(state) {
        KeepWindow(c, state.value, requestId, !gone);
      } else {
        threads := threads - {c};
      }
      if gone {
        return;
      }
      if owedReloadChatId == Some(c) {
        owedReloadChatId := None;
      }
    }

    method KeepWindow(c: ChatId, state: Thread, requestId: nat, failed: bool)
      requires c in threads
      modifies this`threads, this`pendingLive
      ensures var before := old(threads[c].messages);
              var parked := old(pendingLive);
              && pendingLive == (if state.hasMoreNewer then parked else [])
              && threads == old(threads)[c := state.(
                   messages := if state.hasMoreNewer then before else Extended(before, parked),
                   newestId := if state.hasMoreNewer then state.newestId else ExtendedNewest(before, state.newestId, parked),
                   requestId := requestId, loading := NotLoading, windowError := failed || state.windowError)]
    {
      var messages, newestId := threads[c].messages, state.newestId;
      if !state.hasMoreNewer {
        messages, newestId := WithPendingLive(messages, newestId);
      }
      threads := threads[c := state.(messages := messages, newestId := newestId, requestId := requestId,
                                     loading := NotLoading, windowError := failed || state.windowError)];
    }

    /** loadEdgePage up to the request. */
    method BeginEdge(c: ChatId, older: bool) returns (started: bool)
      modifies this
      ensures Now() == EdgeStarted(old(Now()), c, older) && started == CanLoadEdge(old(Now()), c, older)
    {
      if c !in threads || threads[c].loading != NotLoading {
        return false;
      }
      var state := threads[c];
      if older && (!state.hasMore || state.oldestId.None?) {
        return false;
      }
      if !older && (!state.hasMoreNewer || state.newestId.None?) {
        return false;
      }
      requestSeq := requestSeq + 1;
      if !older && currentChatId == Some(c) {
        pendingLive := [];
      }
      threads := threads[c := state.(requestId := requestSeq, loading := if older then OlderLoad else NewerLoad)];
      return true;
    }

    method OnOlder(c: ChatId, requestId: nat, page: Page)
      modifies this
      ensures Now() == EdgeAnswered(old(Now()), c, requestId, true, page)
    {
      if !IsRequest(Now(), c, requestId) {
        return;
      }
      var current := threads[c];
      var unseen := Without(PageMessages(page.raw), current.messages);
      threads := threads[c := current.(messages := unseen + current.messages, oldestId := Or(FirstId(page.raw), current.oldestId),
                                       hasMore := page.raw != [] && page.moreOlder, error := false, loading := NotLoading)];
    }

    method OnNewer(c: ChatId, requestId: nat, page: Page)
      modifies this
      ensures Now() == EdgeAnswered(old(Now()), c, requestId, false, page)
    {
      if !IsRequest(Now(), c, requestId) {
        return;
      }
      var current := threads[c];
      var unseen := Without(PageMessages(page.raw), current.messages);
      var hasMoreNewer := page.raw != [] && page.moreNewer;
      var messages, newestId := current.messages + unseen, Or(LastId(page.raw), current.newestId);
      if !hasMoreNewer {
        messages, newestId := WithPendingLive(messages, newestId);
      }
      threads := threads[c := current.(messages := messages, newestId := newestId, hasMoreNewer := hasMoreNewer,
                                       newerError := false, loading := NotLoading)];
    }

    method OnEdgeFailed(c: ChatId, requestId: nat, older: bool)
      modifies this
      ensures Now() == EdgeFailed(old(Now()), c, requestId, older)
    {
      if IsRequest(Now(), c, requestId) {
        var current := threads[c].(loading := NotLoading);
        threads := threads[c := if older then current.(error := true) else current.(newerError := true)];
      }
    }

    method IngestMessage(c: ChatId, m: MessageId, shown: bool, isNew: bool)
      modifies this
      ensures Now() == Ingested(old(Now()), c, m, shown, isNew)
    {
      if !shown {
        return;
      }
      var thread := if currentChatId == Some(c) then ThreadOf(Now(), c) else None;
      if thread.Some? && m in thread.value.messages {
        return;
      }
      if !isNew || thread.None? {
        return;
      }
      if thread.value.loading == WindowLoad || thread.value.loading == NewerLoad {
        pendingLive := pendingLive + [m];
        return;
      }
      if thread.value.hasMoreNewer {
        return;
      }
      threads := threads[c := thread.value.(messages := thread.value.messages + [m], newestId := Some(m))];
    }

    method OpenChat(c: ChatId)
      modifies this
      ensures Now() == Opened(old(Now()), c)
    {
      if currentChatId != Some(c) {
        owedReloadChatId := None;
        if currentChatId.Some? {
          threads := threads - {currentChatId.value};
        }
      }
      pendingLive := [];
      currentChatId := Some(c);
    }

    /** _reloadWindow up to its load. */
    method ReloadWindow(c: ChatId) returns (load: bool)
      modifies this
      ensures Now() == ReloadOwed(old(Now()), c) && load == CanReload(old(Now()), c)
    {
      if c in threads && threads[c].loading == WindowLoad {
        owedReloadChatId := Some(c);
        return false;
      }
      return c in threads && threads[c].messages != [];
    }

    /** _payOwedReload up to the load. */
    method PayOwedReload(c: ChatId) returns (load: bool)
      modifies this
      ensures Now() == OwedPaid(old(Now()), c) && load == (IsDue(old(Now()), c) && CanReload(old(Now()), c))
    {
      if owedReloadChatId != Some(c) {
        return false;
      }
      if c in threads && threads[c].loading == WindowLoad {
        return false;
      }
      owedReloadChatId := None;
      load := ReloadWindow(c);
    }

    method Teardown()
      modifies this
      ensures Now() == Left(old(Now()))
    {
      currentChatId := None;
      threads := map[];
      pendingLive := [];
      owedReloadChatId := None;
    }
  }
}
