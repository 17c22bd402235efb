/**
 * Refetching the chat list after a reconnect (frontend/app/services/whatsapp.js): calls that come while a
 * fetch is under way are answered by one more fetch, and a closed socket cuts everything off.
 */
module Resync {
  import opened Options

  type Time = nat

  /** One run of the fetch: the generation it belongs to, when it began, and its ticket for the chat list. */
  datatype Fetch = Fetch(id: nat, generation: nat, startedAt: Time, ticket: nat)

  /** A list of chats that was taken over: a fetch's, with the generation it came in, or another load's. */
  datatype List = Fetched(fetch: Fetch, generation: nat) | Loaded(number: nat) {
    function Ticket(): nat { if Fetched? then fetch.ticket else number }
  }

  /**
   * `tickets` is the last ticket given out and `applied` the one whose list is on show; `seeded` are all lists
   * taken over, oldest first.
   */
  datatype Sync = Sync(generation: nat, inFlight: bool, pending: bool, running: set<Fetch>, fetches: nat,
                       tickets: nat, applied: nat, seeded: seq<List>)

  const Sync0: Sync := Sync(0, false, false, {}, 0, 0, 0, [])

  function NewFetch(s: Sync, now: Time): Fetch { Fetch(s.fetches, s.generation, now, s.tickets + 1) }

  function Called(s: Sync, now: Time): Sync {
    if s.inFlight then s.(pending := true)
    else s.(inFlight := true, running := s.running + {NewFetch(s, now)}, fetches := s.fetches + 1,
            tickets := s.tickets + 1)
  }

  /** The user's state is cleared: no ticket given out so far counts any more. */
  function Outdated(s: Sync): Sync { s.(tickets := s.tickets + 1, applied := s.tickets + 1) }

  /** A list is taken over unless a newer one is on show. */
  function Seeded(s: Sync, list: List): Sync {
    if list.Ticket() < s.applied then s else s.(applied := list.Ticket(), seeded := s.seeded + [list])
  }

  function Closed(s: Sync): Sync { s.(generation := s.generation + 1, inFlight := false, pending := false) }

  /** The fetch is over; if calls came meanwhile, the next one starts. */
  function Released(s: Sync, f: Fetch, now: Time): Sync {
    if f.generation != s.generation then s
    else if s.pending then Called(s.(inFlight := false, pending := false), now)
    else s.(inFlight := false)
  }

  /** `closes` says that a listener of the new chats closes the socket. */
  function Settled(s: Sync, f: Fetch, ok: bool, closes: bool, now: Time): Sync {
    var t := s.(running := s.running - {f});
    if f.generation != s.generation then t
    else
      var u := if ok then Seeded(t, Fetched(f, t.generation)) else t;
      Released(if ok && closes then Closed(u) else u, f, now)
  }

  class Resynchroniser {
    var generation: nat
    var inFlight: bool
    var pending: bool
    var running: set<Fetch>
    var fetches: nat
    var tickets: nat
    var applied: nat
    var seeded: seq<List>

    function Now(): Sync
      reads this
    {
      Sync(generation, inFlight, pending, running, fetches, tickets, applied, seeded)
    }

    constructor ()
      ensures Now() == Sync0
    {
      generation, inFlight, pending, running, fetches := 0, false, false, {}, 0;
      tickets, applied, seeded := 0, 0, [];
    }

    method BeginUnreadSeed() returns (ticket: nat)
      modifies this
      ensures ticket == old(tickets) + 1 && Now() == old(Now()).(tickets := ticket)
    {
      tickets := tickets + 1;
      return tickets;
    }

    method SeedChats(list: List)
      modifies this
      ensures Now() == Seeded(old(Now()), list)
    {
      if list.Ticket() < applied {
        return;
      }
      applied := list.Ticket();
      seeded := seeded + [list];
    }

    method Resync(now: Time)
      modifies this
      ensures Now() == Called(old(Now()), now)
    {
      if inFlight {
        pending := true;
        return;
      }
      var ticket := BeginUnreadSeed();
      inFlight := true;
      running := running + {Fetch(fetches, generation, now, ticket)};
      fetches := fetches + 1;
    }

    /** What follows the answer to a fetch. */
    method OnChats(f: Fetch, ok: bool, closes: bool, now: Time)
      modifies this
      ensures Now() == Settled(old(Now()), f, ok, closes, now)
    {
      running := running - {f};
      if ok && f.generation == generation {
        SeedChats(Fetched(f, generation));
        if closes {
          CloseSocket();
        }
      }
      if f.generation == generation {
        inFlight := false;
        if pending {
          pending := false;
          Resync(now);
        }
      }
    }

    method CloseSocket()
      modifies this
      ensures Now() == Closed(old(Now()))
    {
      generation := generation + 1;
      inFlight := false;
      pending := false;
    }
  }

  // ----- Runs -----

  datatype Event =
    | Call
    | Close
    | Answer(fetch: Fetch, ok: bool, closes: bool)
    | OtherTicket
    | OtherAnswer(ticket: nat)
    | ClearUser

  /** The calls since the last close, and the starts of the fetches since then, oldest first. */
  datatype World = World(sync: Sync, clock: Time, calls: seq<Time>, starts: seq<Time>)

  const World0: World := World(Sync0, 0, [], [])

  predicate Enabled(w: World, e: Event) {
    (e.Answer? ==> e.fetch in w.sync.running) && (e.OtherAnswer? ==> e.ticket <= w.sync.tickets)
  }

  function WithSync(w: World, s: Sync, calls: seq<Time>): World {
    var now := w.clock + 1;
    if s.generation != w.sync.generation then World(s, now, [], [])
    else World(s, now, calls, if s.fetches > w.sync.fetches then w.starts + [now] else w.starts)
  }

  function Moved(s: Sync, e: Event, now: Time): Sync {
    match e
    case Call => Called(s, now)
    case Close => Closed(s)
    case Answer(f, ok, closes) => Settled(s, f, ok, closes, now)
    case OtherTicket => s.(tickets := s.tickets + 1)
    case OtherAnswer(ticket) => Seeded(s, Loaded(ticket))
    case ClearUser => Outdated(s)
  }

  function Next(w: World, e: Event): World {
    var now := w.clock + 1;
    WithSync(w, Moved(w.sync, e, now), if e.Call? then w.calls + [now] else w.calls)
  }

  ghost predicate IsRun(worlds: seq<World>, events: seq<Event>) {
    && |worlds| == |events| + 1 && worlds[0] == World0
    && forall i | 0 <= i < |events| :: Enabled(worlds[i], events[i]) && worlds[i + 1] == Next(worlds[i], events[i])
  }

  // ----- The invariant -----

  /** A fetch that starts at or after the call, under way or over. */
  ghost predicate Followed(call: Time, starts: seq<Time>) { exists i :: 0 <= i < |starts| && starts[i] >= call }

  ghost predicate CallsAnswered(w: World) {
    forall i | 0 <= i < |w.calls| :: w.sync.pending || Followed(w.calls[i], w.starts)
  }

  ghost predicate OneOfEach(running: set<Fetch>, generation: nat, inFlight: bool) {
    && (forall f, g | f in running && g in running && f.generation == g.generation :: f == g)
    && (forall f | f in running :: f.generation <= generation)
    && (inFlight <==> exists f :: f in running && f.generation == generation)
  }

  ghost predicate OnePerGeneration(s: Sync) { OneOfEach(s.running, s.generation, s.inFlight) }

  ghost predicate SeededInTime(s: Sync) {
    forall i | 0 <= i < |s.seeded| && s.seeded[i].Fetched? :: s.seeded[i].fetch.generation == s.seeded[i].generation
  }

  /** The lists taken over, each no older than the one before, up to the one on show. */
  ghost predicate InTicketOrder(seeded: seq<List>, applied: nat) {
    && (forall i | 0 <= i < |seeded| :: seeded[i].Ticket() <= applied)
    && (forall i, j | 0 <= i < j < |seeded| :: seeded[i].Ticket() <= seeded[j].Ticket())
  }

  ghost predicate TicketsSound(s: Sync) {
    && s.applied <= s.tickets && InTicketOrder(s.seeded, s.applied)
    && (forall f | f in s.running :: f.ticket <= s.tickets)
  }

  ghost predicate Sound(w: World) {
    && CallsAnswered(w) && OnePerGeneration(w.sync) && SeededInTime(w.sync) && TicketsSound(w.sync)
    && (w.sync.pending ==> w.sync.inFlight)
    && (forall i | 0 <= i < |w.calls| :: w.calls[i] <= w.clock)
  }

  lemma NextIsSound(w: World, e: Event)
    requires Sound(w) && Enabled(w, e)
    ensures Sound(Next(w, e))
  {
    CallsStayAnswered(w, e);
    FetchesStaySingle(w.sync, e, w.clock + 1);
    TicketsStaySound(w, e);
    SeedsStayInTime(w, e);
    CallsStayDated(w, e);
  }

  lemma CallsStayDated(w: World, e: Event)
    requires (w.sync.pending ==> w.sync.inFlight) && forall i | 0 <= i < |w.calls| :: w.calls[i] <= w.clock
    ensures var v := Next(w, e);
            (v.sync.pending ==> v.sync.inFlight) && forall i | 0 <= i < |v.calls| :: v.calls[i] <= v.clock
  {
  }

  lemma SeedingKeepsTickets(s: Sync, list: List)
    requires TicketsSound(s) && list.Ticket() <= s.tickets
    ensures TicketsSound(Seeded(s, list))
  {
  }

  lemma ReleaseKeepsTickets(s: Sync, f: Fetch, now: Time)
    requires TicketsSound(s)
    ensures TicketsSound(Released(s, f, now))
  {
  }

  lemma AnswerKeepsTickets(s: Sync, f: Fetch, ok: bool, closes: bool, now: Time)
    requires TicketsSound(s) && f in s.running
    ensures TicketsSound(Settled(s, f, ok, closes, now))
  {
    var t := s.(running := s.running - {f});
    SeedingKeepsTickets(t, Fetched(f, t.generation));
    var u := if ok then Seeded(t, Fetched(f, t.generation)) else t;
    ReleaseKeepsTickets(if ok && closes then Closed(u) else u, f, now);
  }

  lemma TicketsStaySound(w: World, e: Event)
    requires TicketsSound(w.sync) && Enabled(w, e)
    ensures TicketsSound(Next(w, e).sync)
  {
    if e.Answer? {
      AnswerKeepsTickets(w.sync, e.fetch, e.ok, e.closes, w.clock + 1);
    } else if e.OtherAnswer? {
      SeedingKeepsTickets(w.sync, Loaded(e.ticket));
    }
  }

  lemma SeedsStayInTime(w: World, e: Event)
    requires SeededInTime(w.sync)
    ensures SeededInTime(Next(w, e).sync)
  {
  }

  lemma CallKeepsOne(s: Sync, now: Time)
    requires OnePerGeneration(s)
    ensures OnePerGeneration(Called(s, now))
  {
    if !s.inFlight {
      assert NewFetch(s, now) in Called(s, now).running;
    }
  }

  /** The fetch of this generation ends: none is under way, and the owed one may start. */
  lemma AnswerKeepsOne(s: Sync, f: Fetch, now: Time)
    requires OnePerGeneration(s) && f in s.running && f.generation == s.generation
    ensures OnePerGeneration(s.(running := s.running - {f}, inFlight := false))
    ensures OnePerGeneration(Called(s.(running := s.running - {f}, inFlight := false, pending := false), now))
  {
    CallKeepsOne(s.(running := s.running - {f}, inFlight := false, pending := false), now);
  }

  lemma CloseKeepsOne(s: Sync)
    requires OnePerGeneration(s)
    ensures OnePerGeneration(Closed(s))
  {
  }

  lemma ClosingAnswerKeepsOne(s: Sync, f: Fetch)
    requires OnePerGeneration(s)
    ensures OnePerGeneration(Closed(s.(running := s.running - {f})))
  {
  }

  lemma FetchesStaySingle(s: Sync, e: Event, now: Time)
    requires OnePerGeneration(s) && (e.Answer? ==> e.fetch in s.running)
    ensures OnePerGeneration(Moved(s, e, now))
  {
    match e
    case Call =>
      CallKeepsOne(s, now);
    case Answer(f, ok, closes) =>
      SettledKeepsOne(s, f, ok, closes, now);
    case Close =>
      CloseKeepsOne(s);
    case _ =>
  }

  lemma SettledKeepsOne(s: Sync, f: Fetch, ok: bool, closes: bool, now: Time)
    requires OnePerGeneration(s) && f in s.running
    ensures OnePerGeneration(Settled(s, f, ok, closes, now))
  {
    if f.generation != s.generation {
      assert forall g | g in s.running && g.generation == s.generation :: g in s.running - {f};
    } else {
      var u := if ok then Seeded(s, Fetched(f, s.generation)) else s;
      ClosingAnswerKeepsOne(u, f);
      AnswerKeepsOne(u, f, now);
    }
  }

  lemma CallsStayAnswered(w: World, e: Event)
    requires Sound(w) && Enabled(w, e)
    ensures CallsAnswered(Next(w, e))
  {
    var v := Next(w, e);
    forall i | 0 <= i < |v.calls| && !v.sync.pending ensures Followed(v.calls[i], v.starts) {
      if v.sync.fetches > w.sync.fetches {
        assert v.starts[|w.starts|] == w.clock + 1;
      } else {
        assert Followed(w.calls[i], w.starts);
        var j :| 0 <= j < |w.starts| && w.starts[j] >= w.calls[i];
        assert v.starts[j] >= v.calls[i];
      }
    }
  }

  lemma {:induction false} RunIsSound(worlds: seq<World>, events: seq<Event>, k: nat)
    requires IsRun(worlds, events) && k < |worlds|
    ensures Sound(worlds[k])
  {
    if k > 0 {
      RunIsSound(worlds, events, k - 1);
      NextIsSound(worlds[k - 1], events[k - 1]);
    }
  }

  // ----- Theorems -----

  /**
   * Of the calls since the last close, each has a fetch that started at or after it, or one is owed and the
   * fetch under way will start it: once no fetch is under way, nothing is owed.
   */
  lemma EveryCallIsFollowed(worlds: seq<World>, events: seq<Event>, k: nat, i: nat)
    requires IsRun(worlds, events) && k < |worlds| && i < |worlds[k].calls|
    ensures Followed(worlds[k].calls[i], worlds[k].starts) || (worlds[k].sync.inFlight && worlds[k].sync.pending)
    ensures !worlds[k].sync.inFlight ==> Followed(worlds[k].calls[i], worlds[k].starts)
  {
    RunIsSound(worlds, events, k);
  }

  /** The owed fetch starts with the very answer of the one under way, whether that succeeded or failed. */
  lemma OwedFetchStarts(worlds: seq<World>, events: seq<Event>, k: nat)
    requires IsRun(worlds, events) && k < |events| && events[k].Answer? && worlds[k].sync.pending
    requires events[k].fetch.generation == worlds[k].sync.generation && !(events[k].ok && events[k].closes)
    ensures worlds[k + 1].starts == worlds[k].starts + [worlds[k].clock + 1]
    ensures worlds[k + 1].sync.inFlight && !worlds[k + 1].sync.pending
  {
    assert worlds[k + 1] == Next(worlds[k], events[k]);
  }

  /** Of one generation at most one fetch is under way. */
  lemma OneFetchPerGeneration(worlds: seq<World>, events: seq<Event>, k: nat, f: Fetch, g: Fetch)
    requires IsRun(worlds, events) && k < |worlds| && f in worlds[k].sync.running && g in worlds[k].sync.running
    requires f.generation == g.generation
    ensures f == g
  {
    RunIsSound(worlds, events, k);
  }

  /** An answer of an older generation takes over no chats and starts, owes and frees nothing. */
  lemma StaleAnswerChangesNothing(s: Sync, f: Fetch, ok: bool, closes: bool, now: Time)
    ensures f.generation != s.generation ==> Settled(s, f, ok, closes, now) == s.(running := s.running - {f})
  {
  }

  /** Chats are only ever taken over in the generation that asked for them. */
  lemma ChatsComeFromTheirGeneration(worlds: seq<World>, events: seq<Event>, k: nat, i: nat)
    requires IsRun(worlds, events) && k < |worlds| && i < |worlds[k].sync.seeded|
    requires worlds[k].sync.seeded[i].Fetched?
    ensures worlds[k].sync.seeded[i].fetch.generation == worlds[k].sync.seeded[i].generation
  {
    RunIsSound(worlds, events, k);
  }

  /** No list taken over, whoever loaded it, is older than one taken over before it. */
  lemma NewerChatsStay(worlds: seq<World>, events: seq<Event>, k: nat, i: nat, j: nat)
    requires IsRun(worlds, events) && k < |worlds| && i < j < |worlds[k].sync.seeded|
    ensures worlds[k].sync.seeded[i].Ticket() <= worlds[k].sync.seeded[j].Ticket() <= worlds[k].sync.applied
  {
    RunIsSound(worlds, events, k);
  }

  // ----- Which lists are taken over -----

  /** A newer list was taken over before. */
  ghost predicate Overtaken(s: Sync, ticket: nat) { exists i :: 0 <= i < |s.seeded| && ticket < s.seeded[i].Ticket() }

  /** The user's state was cleared after the ticket was given out. */
  ghost predicate ClearedSince(worlds: seq<World>, events: seq<Event>, k: nat, ticket: nat)
    requires k <= |events| <= |worlds|
  {
    exists j :: 0 <= j < k && events[j].ClearUser? && ticket <= worlds[j].sync.tickets
  }

  lemma SeedingOvertakes(s: Sync, list: List, ticket: nat)
    requires InTicketOrder(s.seeded, s.applied)
    ensures ticket < Seeded(s, list).applied <==> ticket < s.applied || Overtaken(Seeded(s, list), ticket)
    ensures Overtaken(s, ticket) ==> Overtaken(Seeded(s, list), ticket)
  {
    var t := Seeded(s, list);
    if list.Ticket() >= s.applied {
      assert t.seeded[|s.seeded|] == list;
    }
    if i :| 0 <= i < |s.seeded| && ticket < s.seeded[i].Ticket() {
      assert t.seeded[i] == s.seeded[i];
    }
  }

  /** Only the list moves the bound, whatever starts or ends with the answer. */
  lemma AnswerKeepsBound(s: Sync, f: Fetch, ok: bool, closes: bool, now: Time)
    ensures var t, u := Settled(s, f, ok, closes, now), Seeded(s, Fetched(f, s.generation));
            if ok && f.generation == s.generation then t.seeded == u.seeded && t.applied == u.applied
            else t.seeded == s.seeded && t.applied == s.applied
  {
  }

  lemma AnswerOutdates(s: Sync, f: Fetch, ok: bool, closes: bool, now: Time, ticket: nat)
    requires TicketsSound(s)
    ensures var t := Settled(s, f, ok, closes, now);
            && (ticket < t.applied <==> ticket < s.applied || Overtaken(t, ticket))
            && (Overtaken(s, ticket) ==> Overtaken(t, ticket))
  {
    AnswerKeepsBound(s, f, ok, closes, now);
    SeedingOvertakes(s, Fetched(f, s.generation), ticket);
  }

  /** What an event outdates: what the list that it takes over is newer than, and on a clear all tickets so far. */
  lemma EventOutdates(s: Sync, e: Event, now: Time, ticket: nat)
    requires TicketsSound(s)
    ensures var t := Moved(s, e, now);
            && (ticket < t.applied <==>
                  ticket < s.applied || Overtaken(t, ticket) || (e.ClearUser? && ticket <= s.tickets))
            && (Overtaken(s, ticket) ==> Overtaken(t, ticket))
  {
    match e
    case Answer(f, ok, closes) => AnswerOutdates(s, f, ok, closes, now, ticket);
    case OtherAnswer(n) => SeedingOvertakes(s, Loaded(n), ticket);
    case _ =>
  }

  lemma ClearedSoFar(worlds: seq<World>, events: seq<Event>, k: nat, ticket: nat)
    requires 0 < k <= |events| <= |worlds|
    ensures ClearedSince(worlds, events, k, ticket) <==>
            || ClearedSince(worlds, events, k - 1, ticket)
            || (events[k - 1].ClearUser? && ticket <= worlds[k - 1].sync.tickets)
  {
  }

  lemma OutdatedStep(s: Sync, e: Event, now: Time, ticket: nat, before: bool, after: bool)
    requires TicketsSound(s) && (ticket < s.applied <==> Overtaken(s, ticket) || before)
    requires after <==> before || (e.ClearUser? && ticket <= s.tickets)
    ensures ticket < Moved(s, e, now).applied <==> Overtaken(Moved(s, e, now), ticket) || after
  {
    EventOutdates(s, e, now, ticket);
  }

  lemma RunTickets(worlds: seq<World>, events: seq<Event>, k: nat)
    requires IsRun(worlds, events) && k < |worlds|
    ensures TicketsSound(worlds[k].sync)
  {
    RunIsSound(worlds, events, k);
  }

  lemma {:induction false} OutdatedExactly(worlds: seq<World>, events: seq<Event>, k: nat, ticket: nat)
    requires IsRun(worlds, events) && k < |worlds|
    ensures ticket < worlds[k].sync.applied <==>
            Overtaken(worlds[k].sync, ticket) || ClearedSince(worlds, events, k, ticket)
  {
    if k > 0 {
      var w, e := worlds[k - 1], events[k - 1];
      OutdatedExactly(worlds, events, k - 1, ticket);
      RunTickets(worlds, events, k - 1);
      ClearedSoFar(worlds, events, k, ticket);
      SyncMoves(worlds, events, k - 1);
      OutdatedStep(w.sync, e, w.clock + 1, ticket, ClearedSince(worlds, events, k - 1, ticket),
                   ClearedSince(worlds, events, k, ticket));
    }
  }

  lemma SyncMoves(worlds: seq<World>, events: seq<Event>, k: nat)
    requires IsRun(worlds, events) && k < |events|
    ensures worlds[k + 1].sync == Moved(worlds[k].sync, events[k], worlds[k].clock + 1)
  {
  }

  /** The list that an event brings: an answer of this generation, or another load's. */
  function Brought(s: Sync, e: Event): Option<List> {
    match e
    case Answer(f, ok, _) => if ok && f.generation == s.generation then Some(Fetched(f, s.generation)) else None
    case OtherAnswer(n) => Some(Loaded(n))
    case _ => None
  }

  /**
   * Over every run: a list that an event brings is taken over exactly when no newer one was before it and the
   * user's state was not cleared since its ticket was given out; no other list is ever taken over.
   */
  lemma ListsAreDroppedExactlyWhenOutdated(worlds: seq<World>, events: seq<Event>, k: nat)
    requires IsRun(worlds, events) && k < |events|
    ensures var s, list := worlds[k].sync, Brought(worlds[k].sync, events[k]);
            worlds[k + 1].sync.seeded ==
            if list.Some? && !Overtaken(s, list.value.Ticket()) && !ClearedSince(worlds, events, k, list.value.Ticket())
            then s.seeded + [list.value] else s.seeded
  {
    var list := Brought(worlds[k].sync, events[k]);
    if list.Some? {
      OutdatedExactly(worlds, events, k, list.value.Ticket());
    }
    SyncMoves(worlds, events, k);
  }

  // ----- No fetch without a call -----

  predicate CallsPay(w: World) { |w.starts| + (if w.sync.pending then 1 else 0) <= |w.calls| }

  lemma NextCallsPay(w: World, e: Event)
    requires CallsPay(w)
    ensures CallsPay(Next(w, e))
  {
  }

  /** Over every run, no more fetches started since the last close, an owed one included, than were called for. */
  lemma {:induction false} FetchesNeverOutnumberCalls(worlds: seq<World>, events: seq<Event>, k: nat)
    requires IsRun(worlds, events) && k < |worlds|
    ensures |worlds[k].starts| + (if worlds[k].sync.pending then 1 else 0) <= |worlds[k].calls|
  {
    if k > 0 {
      FetchesNeverOutnumberCalls(worlds, events, k - 1);
      NextCallsPay(worlds[k - 1], events[k - 1]);
    }
  }

  /** When a listener of the new chats closes the socket, the owed fetch never starts, and nothing is under way. */
  lemma ClosingListenerCutsOff(worlds: seq<World>, events: seq<Event>, k: nat)
    requires IsRun(worlds, events) && k < |events| && events[k].Answer? && events[k].ok && events[k].closes
    requires events[k].fetch.generation == worlds[k].sync.generation
    ensures var s, t := worlds[k].sync, worlds[k + 1].sync;
            && t.generation == s.generation + 1 && !t.inFlight && !t.pending && t.fetches == s.fetches
            && t.running == s.running - {events[k].fetch} && forall f | f in t.running :: f.generation != t.generation
  {
    RunIsSound(worlds, events, k);
    SyncMoves(worlds, events, k);
  }
}
