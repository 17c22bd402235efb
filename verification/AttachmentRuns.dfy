/**
 * The runs of the upload queue: one upload per chat and generation, a run wherever there is work, every
 * turn of a run gets work done, and a run from before a reset changes nothing.
 */
module AttachmentRuns {
  import opened Options
  import opened Attachments
  import opened AttachmentLists
  import opened AttachmentTheorems

  predicate UploadingAt(list: seq<Pending>, i: int,
                        id: ItemId) { 0 <= i < |list| && list[i].id == id && list[i].uploading }

  ghost predicate HasUploading(list: seq<Pending>) { exists i :: 0 <= i < |list| && list[i].uploading }

  predicate IsCurrent(list: seq<Pending>,
                      generation: nat) { forall i | 0 <= i < |list| :: list[i].generation == generation }

  /** An id is in use once at most, in the tray or in the chat's list; ids to come are unused. */
  predicate IdSound(s: Queue, c: ChatId, id: ItemId) {
    Staging(s.items, id) + Tally(PendingFor(s.pending, c), ById(id)) <= if id <= s.lastId then 1 else 0
  }

  ghost predicate ListsSound(s: Queue) {
    && (forall c, id :: IdSound(s, c, id))
    && (forall c :: IsCurrent(PendingFor(s.pending, c), s.generation))
  }

  /** An upload of this generation is the registered run's, and its item is still uploading. */
  ghost predicate UploadSound(s: Queue, run: RunId, u: Upload) {
    && run <= s.lastRun && u.itemGeneration == u.runGeneration <= s.generation
    && (u.runGeneration == s.generation ==>
          && u.chatId in s.runs && s.runs[u.chatId] == run
          && exists i :: UploadingAt(PendingFor(s.pending, u.chatId), i, u.itemId))
  }

  ghost predicate UploadsSound(s: Queue) { forall run | run in s.uploads :: UploadSound(s, run, s.uploads[run]) }

  /** The chat's registered run waits for an upload of the chat, of this generation. */
  predicate RunSound(s: Queue, c: ChatId) {
    c in s.runs ==>
      s.runs[c] in s.uploads && s.uploads[s.runs[c]].chatId == c && s.uploads[s.runs[c]].runGeneration == s.generation
  }

  ghost predicate OnePerChat(uploads: map<RunId, Upload>) {
    forall r, t | r in uploads && t in uploads && uploads[r].chatId == uploads[t].chatId
                  && uploads[r].runGeneration == uploads[t].runGeneration :: r == t
  }

  ghost predicate RunsSound(s: Queue) { UploadsSound(s) && (forall c :: RunSound(s, c)) && OnePerChat(s.uploads) }

  ghost predicate WorkSound(s: Queue) { forall c | HasUploading(PendingFor(s.pending, c)) :: c in s.runs }

  ghost predicate Sound(s: Queue) { ListsSound(s) && RunsSound(s) && WorkSound(s) }

  lemma ListsAfter(pending: PendingByChat, c: ChatId, list: seq<Pending>, d: ChatId)
    ensures PendingFor(WithList(pending, c, list), d) == if d == c then list else PendingFor(pending, d)
  {
  }

  // ----- Lists -----

  lemma MoveKeepsId(s: Queue, c: ChatId, d: ChatId, id: ItemId)
    requires IdSound(s, d, id)
    ensures IdSound(MovedOut(s, c), d, id)
  {
    var moving := Kept(s.items, false);
    var moved, list := Moved(moving, s.created, s.generation), PendingFor(s.pending, c);
    TraySplits(s.items, id);
    MovedIds(moving, s.created, s.generation, id);
    TallyOfBoth(list, moved, ById(id));
    ListsAfter(s.pending, c, list + moved, d);
  }

  lemma MoveKeepsLists(s: Queue, c: ChatId)
    requires ListsSound(s)
    ensures ListsSound(MovedOut(s, c))
  {
    var t, list := MovedOut(s, c), PendingFor(s.pending, c);
    var moved := Moved(Kept(s.items, false), s.created, s.generation);
    forall d, id ensures IdSound(t, d, id) {
      MoveKeepsId(s, c, d, id);
    }
    MovedAre(Kept(s.items, false), s.created, s.generation);
    forall d ensures IsCurrent(PendingFor(t.pending, d), t.generation) {
      ListsAfter(s.pending, c, list + moved, d);
      assert IsCurrent(PendingFor(s.pending, d), s.generation);
    }
  }

  /** One chat's list replaced by one with no more of any id, the tray and the rest untouched. */
  lemma ReplaceKeepsLists(s: Queue, c: ChatId, list: seq<Pending>, t: Queue)
    requires ListsSound(s) && IsCurrent(list, s.generation)
    requires forall id :: Tally(list, ById(id)) <= Tally(PendingFor(s.pending, c), ById(id))
    requires t.pending == WithList(s.pending, c, list)
    requires t.items == s.items && t.lastId == s.lastId && t.generation == s.generation
    ensures ListsSound(t)
  {
    forall d, id ensures IdSound(t, d, id) {
      ListsAfter(s.pending, c, list, d);
      assert IdSound(s, d, id);
    }
    forall d ensures IsCurrent(PendingFor(t.pending, d), t.generation) {
      ListsAfter(s.pending, c, list, d);
    }
  }

  lemma PatchKeepsLists(s: Queue, c: ChatId, id: ItemId, changes: Changes)
    requires ListsSound(s)
    ensures ListsSound(PatchedAt(s, c, id, changes))
  {
    var list := PendingFor(s.pending, c);
    var next := Patched(list, id, changes);
    PatchIs(list, id, changes);
    forall x ensures Tally(next, ById(x)) <= Tally(list, ById(x)) {
      PatchKeepsTally(list, id, changes, ById(x));
    }
    ReplaceKeepsLists(s, c, next, PatchedAt(s, c, id, changes));
  }

  lemma DropAtKeepsLists(s: Queue, c: ChatId, i: nat, keepAs: Option<Uuid>)
    requires ListsSound(s) && i < |PendingFor(s.pending, c)|
    ensures ListsSound(DroppedAt(s, c, i, keepAs))
  {
    var list := PendingFor(s.pending, c);
    CutIs(list, i);
    forall x ensures Tally(Cut(list, i), ById(x)) <= Tally(list, ById(x)) {
      TallyCut(list, i, ById(x));
    }
    ReplaceKeepsLists(s, c, Cut(list, i), DroppedAt(s, c, i, keepAs));
  }

  // ----- A run between two uploads -----

  /** Sound but for the chat's registered run, which waits for no upload now. */
  ghost predicate Paused(s: Queue, c: ChatId, run: RunId) {
    && ListsSound(s) && WorkSound(s) && UploadsSound(s) && OnePerChat(s.uploads)
    && run !in s.uploads && run <= s.lastRun && c in s.runs && s.runs[c] == run
    && forall d | d != c :: RunSound(s, d)
  }

  lemma DrainIsSound(s: Queue, c: ChatId, run: RunId)
    requires Paused(s, c, run)
    ensures Sound(Drained(s, c, run, s.generation))
  {
    var list := PendingFor(s.pending, c);
    var i := FirstUploading(list);
    if i < |list| {
      NextUploadIsSound(s, c, run, i);
    } else {
      var t := s.(runs := s.runs - {c});
      assert ListsSound(t) by {
        assert forall d, id :: IdSound(s, d, id) ==> IdSound(t, d, id);
      }
      forall r | r in t.uploads ensures UploadSound(t, r, t.uploads[r]) {
        assert UploadSound(s, r, s.uploads[r]);
      }
      forall d ensures RunSound(t, d) {
        assert d != c ==> RunSound(s, d);
      }
    }
  }

  lemma NextUploadIsSound(s: Queue, c: ChatId, run: RunId, i: nat)
    requires Paused(s, c, run) && i < |PendingFor(s.pending, c)| && PendingFor(s.pending, c)[i].uploading
    ensures var item := PendingFor(s.pending, c)[i];
            Sound(s.(uploads := s.uploads[run := Upload(c, item.id, item.generation, s.generation)]))
  {
    var list := PendingFor(s.pending, c);
    var t := s.(uploads := s.uploads[run := Upload(c, list[i].id, list[i].generation, s.generation)]);
    assert IsCurrent(list, s.generation) && UploadingAt(list, i, list[i].id);
    assert ListsSound(t) by {
      assert forall d, id :: IdSound(s, d, id) ==> IdSound(t, d, id);
    }
    forall r | r in t.uploads ensures UploadSound(t, r, t.uploads[r]) {
      assert r != run ==> UploadSound(s, r, s.uploads[r]);
    }
    forall d ensures RunSound(t, d) {
      assert d != c ==> RunSound(s, d);
    }
    forall r | r in s.uploads && s.uploads[r].chatId == c ensures s.uploads[r].runGeneration != s.generation {
      assert UploadSound(s, r, s.uploads[r]);
    }
  }

  lemma StartIsPaused(s: Queue, c: ChatId)
    requires ListsSound(s) && RunsSound(s) && c !in s.runs
    requires forall d | d != c && HasUploading(PendingFor(s.pending, d)) :: d in s.runs
    ensures Paused(s.(runs := s.runs[c := s.lastRun + 1], lastRun := s.lastRun + 1), c, s.lastRun + 1)
  {
    var run := s.lastRun + 1;
    var t := s.(runs := s.runs[c := run], lastRun := run);
    assert ListsSound(t) by {
      assert forall d, id :: IdSound(s, d, id) ==> IdSound(t, d, id);
    }
    forall r | r in t.uploads ensures UploadSound(t, r, t.uploads[r]) && r != run {
      assert UploadSound(s, r, s.uploads[r]);
    }
    forall d | d != c ensures RunSound(t, d) {
      assert RunSound(s, d);
    }
  }

  lemma RunningIsSound(s: Queue, c: ChatId)
    requires ListsSound(s) && RunsSound(s)
    requires forall d | d != c && HasUploading(PendingFor(s.pending, d)) :: d in s.runs
    ensures Sound(Running(s, c))
  {
    if c !in s.runs {
      StartIsPaused(s, c);
      DrainIsSound(s.(runs := s.runs[c := s.lastRun + 1], lastRun := s.lastRun + 1), c, s.lastRun + 1);
    }
  }

  // ----- Every event -----

  /** Lists grow or change without an upload losing its item. */
  ghost predicate ItemsStay(s: Queue, t: Queue) {
    && t.uploads == s.uploads && t.runs == s.runs && t.lastRun == s.lastRun && t.generation == s.generation
    && forall c, i, id | UploadingAt(PendingFor(s.pending, c), i, id) :: exists j :: UploadingAt(PendingFor(t.pending, c), j, id)
  }

  lemma StayingKeepsRuns(s: Queue, t: Queue)
    requires RunsSound(s) && ItemsStay(s, t)
    ensures RunsSound(t)
  {
    forall r | r in t.uploads ensures UploadSound(t, r, t.uploads[r]) {
      assert UploadSound(s, r, s.uploads[r]);
    }
    forall c ensures RunSound(t, c) {
      assert RunSound(s, c);
    }
  }

  /** A list replaced by one that still holds every uploading item. */
  lemma ReplaceStays(s: Queue, t: Queue, c: ChatId, list: seq<Pending>)
    requires t.pending == WithList(s.pending, c, list)
    requires t.uploads == s.uploads && t.runs == s.runs && t.lastRun == s.lastRun && t.generation == s.generation
    requires forall i, id | UploadingAt(PendingFor(s.pending, c), i, id) :: exists j :: UploadingAt(list, j, id)
    ensures ItemsStay(s, t)
    ensures forall d | d != c :: PendingFor(t.pending, d) == PendingFor(s.pending, d)
    ensures PendingFor(t.pending, c) == list
  {
    forall d ensures PendingFor(t.pending, d) == if d == c then list else PendingFor(s.pending, d) {
      ListsAfter(s.pending, c, list, d);
    }
  }

  lemma MoveStays(s: Queue, c: ChatId)
    ensures ItemsStay(s, MovedOut(s, c))
    ensures forall d | d != c :: PendingFor(MovedOut(s, c).pending, d) == PendingFor(s.pending, d)
  {
    var list := PendingFor(s.pending, c);
    var all := list + Moved(Kept(s.items, false), s.created, s.generation);
    forall i, id | UploadingAt(list, i, id) ensures exists j :: UploadingAt(all, j, id) {
      assert UploadingAt(all, i, id);
    }
    ReplaceStays(s, MovedOut(s, c), c, all);
  }

  lemma SendAllIsSound(s: Queue, c: ChatId)
    requires Sound(s)
    ensures Sound(SentAll(s, c))
  {
    MoveKeepsLists(s, c);
    MoveStays(s, c);
    StayingKeepsRuns(s, MovedOut(s, c));
    RunningIsSound(MovedOut(s, c), c);
  }

  lemma PatchStays(s: Queue, c: ChatId, id: ItemId, changes: Changes)
    requires changes.uploading != Some(false)
    ensures ItemsStay(s, PatchedAt(s, c, id, changes))
    ensures forall d | d != c :: PendingFor(PatchedAt(s, c, id, changes).pending, d) == PendingFor(s.pending, d)
    ensures PendingFor(PatchedAt(s, c, id, changes).pending, c) == Patched(PendingFor(s.pending, c), id, changes)
  {
    var list := PendingFor(s.pending, c);
    var next := Patched(list, id, changes);
    PatchIs(list, id, changes);
    forall i, x | UploadingAt(list, i, x) ensures exists j :: UploadingAt(next, j, x) {
      assert UploadingAt(next, i, x);
    }
    ReplaceStays(s, PatchedAt(s, c, id, changes), c, next);
  }

  lemma RetryIsSound(s: Queue, c: ChatId, id: ItemId)
    requires Sound(s)
    ensures Sound(Retried(s, c, id))
  {
    var changes := Changes(Some(true), Some(0));
    PatchKeepsLists(s, c, id, changes);
    PatchStays(s, c, id, changes);
    StayingKeepsRuns(s, PatchedAt(s, c, id, changes));
    RunningIsSound(PatchedAt(s, c, id, changes), c);
  }

  lemma ProgressIsSound(s: Queue, u: Upload, percent: int)
    requires Sound(s)
    ensures Sound(Progressed(s, u, percent))
  {
    var changes := Changes(None, Some(percent));
    var t, list := PatchedAt(s, u.chatId, u.itemId, changes), PendingFor(s.pending, u.chatId);
    PatchKeepsLists(s, u.chatId, u.itemId, changes);
    PatchStays(s, u.chatId, u.itemId, changes);
    StayingKeepsRuns(s, t);
    PatchIs(list, u.itemId, changes);
    if i :| 0 <= i < |list| && Patched(list, u.itemId, changes)[i].uploading {
      assert list[i].uploading;
    }
    assert WorkSound(t);
  }

  lemma CutKeepsUploading(list: seq<Pending>, i: nat)
    requires i < |list| && !list[i].uploading
    ensures forall j, id | UploadingAt(list, j, id) :: exists k :: UploadingAt(Cut(list, i), k, id)
    ensures HasUploading(Cut(list, i)) ==> HasUploading(list)
  {
    CutIs(list, i);
    forall j, id | UploadingAt(list, j, id) ensures exists k :: UploadingAt(Cut(list, i), k, id) {
      assert UploadingAt(Cut(list, i), if j > i then j - 1 else j, id);
    }
    if k :| 0 <= k < |Cut(list, i)| && Cut(list, i)[k].uploading {
      assert list[if k >= i then k + 1 else k].uploading;
    }
  }

  lemma RemovePendingIsSound(s: Queue, c: ChatId, id: ItemId)
    requires Sound(s)
    ensures Sound(RemovedPending(s, c, id))
  {
    var list := PendingFor(s.pending, c);
    var i := IndexOf(list, id);
    if i < |list| && !list[i].uploading {
      var t := DroppedAt(s, c, i, None);
      DropAtKeepsLists(s, c, i, None);
      CutKeepsUploading(list, i);
      ReplaceStays(s, t, c, Cut(list, i));
      StayingKeepsRuns(s, t);
      assert WorkSound(t);
    }
  }

  // ----- The end of an upload -----

  /** Only the chat's list changes. */
  ghost predicate OnlyList(s: Queue, t: Queue, c: ChatId) {
    && t.uploads == s.uploads && t.runs == s.runs && t.lastRun == s.lastRun && t.generation == s.generation
    && forall d | d != c :: PendingFor(t.pending, d) == PendingFor(s.pending, d)
  }

  lemma DropKeepsLists(s: Queue, c: ChatId, id: ItemId, keepAs: Option<Uuid>)
    requires ListsSound(s)
    ensures ListsSound(Dropped(s, c, id, keepAs))
  {
    var i := IndexOf(PendingFor(s.pending, c), id);
    if i < |PendingFor(s.pending, c)| {
      DropAtKeepsLists(s, c, i, keepAs);
    }
  }

  lemma DropAtOnlyList(s: Queue, c: ChatId, i: nat, keepAs: Option<Uuid>)
    requires i < |PendingFor(s.pending, c)|
    ensures OnlyList(s, DroppedAt(s, c, i, keepAs), c)
  {
    var t, cut := DroppedAt(s, c, i, keepAs), Cut(PendingFor(s.pending, c), i);
    forall d | d != c ensures PendingFor(t.pending, d) == PendingFor(s.pending, d) {
      ListsAfter(s.pending, c, cut, d);
    }
  }

  lemma DropOnlyList(s: Queue, c: ChatId, id: ItemId, keepAs: Option<Uuid>)
    ensures OnlyList(s, Dropped(s, c, id, keepAs), c)
  {
    var i := IndexOf(PendingFor(s.pending, c), id);
    if i < |PendingFor(s.pending, c)| {
      DropAtOnlyList(s, c, i, keepAs);
    }
  }

  lemma LandedLists(s: Queue, u: Upload, outcome: Outcome)
    requires ListsSound(s)
    ensures ListsSound(Landed(s, u, outcome)) && OnlyList(s, Landed(s, u, outcome), u.chatId)
  {
    match outcome
    case Failure => PatchKeepsLists(s, u.chatId, u.itemId, Changes(Some(false), None));
    case Sent(uuid) =>
      DropKeepsLists(s, u.chatId, u.itemId, uuid);
      DropOnlyList(s, u.chatId, u.itemId, uuid);
  }

  /** Sound, with the upload of the chat's registered run over. */
  lemma OverIsPaused(s: Queue, run: RunId)
    requires Sound(s) && run in s.uploads && s.uploads[run].runGeneration == s.generation
    ensures Paused(s.(uploads := s.uploads - {run}), s.uploads[run].chatId, run)
  {
    var t, c := s.(uploads := s.uploads - {run}), s.uploads[run].chatId;
    assert UploadSound(s, run, s.uploads[run]);
    assert ListsSound(t) by {
      assert forall d, id :: IdSound(s, d, id) ==> IdSound(t, d, id);
    }
    forall r | r in t.uploads ensures UploadSound(t, r, t.uploads[r]) {
      assert UploadSound(s, r, s.uploads[r]);
    }
    forall d | d != c ensures RunSound(t, d) {
      assert RunSound(s, d);
    }
  }

  /** A change of the paused run's own list leaves it paused. */
  lemma StillPaused(s: Queue, t: Queue, c: ChatId, run: RunId)
    requires Paused(s, c, run) && ListsSound(t) && OnlyList(s, t, c)
    ensures Paused(t, c, run)
  {
    forall r | r in t.uploads ensures UploadSound(t, r, t.uploads[r]) {
      assert UploadSound(s, r, s.uploads[r]);
    }
    forall d | d != c ensures RunSound(t, d) {
      assert RunSound(s, d);
    }
  }

  lemma StaleFinish(s: Queue, run: RunId, outcome: Outcome)
    requires Sound(s) && run in s.uploads && s.uploads[run].runGeneration != s.generation
    ensures Finished(s, run, outcome) == s.(uploads := s.uploads - {run})
  {
    assert UploadSound(s, run, s.uploads[run]);
    assert RunSound(s, s.uploads[run].chatId);
  }

  lemma ForgottenIsSound(s: Queue, run: RunId)
    requires Sound(s) && run in s.uploads && s.uploads[run].runGeneration != s.generation
    ensures Sound(s.(uploads := s.uploads - {run}))
  {
    var t := s.(uploads := s.uploads - {run});
    assert ListsSound(t) by {
      assert forall d, id :: IdSound(s, d, id) ==> IdSound(t, d, id);
    }
    forall r | r in t.uploads ensures UploadSound(t, r, t.uploads[r]) {
      assert UploadSound(s, r, s.uploads[r]);
    }
    forall c ensures RunSound(t, c) {
      assert RunSound(s, c);
    }
  }

  lemma FinishIsSound(s: Queue, run: RunId, outcome: Outcome)
    requires Sound(s) && run in s.uploads
    ensures Sound(Finished(s, run, outcome))
  {
    var u, v := s.uploads[run], s.(uploads := s.uploads - {run});
    if u.runGeneration == s.generation {
      OverIsPaused(s, run);
      LandedLists(v, u, outcome);
      StillPaused(v, Landed(v, u, outcome), u.chatId, run);
      DrainIsSound(Landed(v, u, outcome), u.chatId, run);
    } else {
      StaleFinish(s, run, outcome);
      ForgottenIsSound(s, run);
    }
  }

  lemma ResetIsSound(s: Queue)
    requires Sound(s)
    ensures Sound(ResetTo(s))
  {
    var t := ResetTo(s);
    forall r | r in t.uploads ensures UploadSound(t, r, t.uploads[r]) {
      assert UploadSound(s, r, s.uploads[r]);
    }
  }

  lemma TrayIsSound(s: Queue, e: Event)
    requires Sound(s) && (e.Add? || e.RemoveStaged? || e.ClearTray? || e.ReleasePlaceholder?)
    ensures Sound(Next(s, e))
  {
    var t := Next(s, e);
    forall c, id ensures IdSound(t, c, id) {
      assert IdSound(s, c, id);
      if e.RemoveStaged? {
        TrayShrinks(s.items, e.itemId, id);
      } else if e.Add? {
        StagingSnoc(s.items, Staged(s.lastId + 1, e.previews, e.refused), id);
      }
    }
    forall c ensures IsCurrent(PendingFor(t.pending, c), t.generation) {
      assert IsCurrent(PendingFor(s.pending, c), s.generation);
    }
    assert ItemsStay(s, t);
    StayingKeepsRuns(s, t);
  }

  lemma NextIsSound(s: Queue, e: Event)
    requires Sound(s) && Enabled(s, e)
    ensures Sound(Next(s, e))
  {
    match e
    case SendAll(c) => SendAllIsSound(s, c);
    case Retry(c, id) => RetryIsSound(s, c, id);
    case RemovePending(c, id) => RemovePendingIsSound(s, c, id);
    case Progress(run, percent) => ProgressIsSound(s, s.uploads[run], percent);
    case Finish(run, outcome) => FinishIsSound(s, run, outcome);
    case Reset => ResetIsSound(s);
    case _ => TrayIsSound(s, e);
  }

  lemma {:induction false} RunIsSound(states: seq<Queue>, events: seq<Event>, i: nat)
    requires IsRun(states, events) && i < |states|
    ensures Sound(states[i])
  {
    if i > 0 {
      RunIsSound(states, events, i - 1);
      NextIsSound(states[i - 1], events[i - 1]);
    }
  }

  // ----- Theorems -----

  /** In every reachable state, of one chat and generation at most one upload is under way. */
  lemma OneUploadPerChat(states: seq<Queue>, events: seq<Event>, i: nat, a: RunId, b: RunId)
    requires IsRun(states, events) && i < |states| && a in states[i].uploads && b in states[i].uploads
    requires states[i].uploads[a].chatId == states[i].uploads[b].chatId
    requires states[i].uploads[a].runGeneration == states[i].uploads[b].runGeneration
    ensures a == b
  {
    RunIsSound(states, events, i);
  }

  /** In every reachable state, a chat with an uploading item has a registered run, which is uploading. */
  lemma WorkHasARun(states: seq<Queue>, events: seq<Event>, i: nat, c: ChatId)
    requires IsRun(states, events) && i < |states| && HasUploading(PendingFor(states[i].pending, c))
    ensures c in states[i].runs && states[i].runs[c] in states[i].uploads
    ensures states[i].uploads[states[i].runs[c]].chatId == c
  {
    RunIsSound(states, events, i);
    assert RunSound(states[i], c);
  }

  /** An upload that a reset left behind changes nothing as it goes on and ends, the newer run's place included. */
  lemma AbandonedUploadChangesNothing(states: seq<Queue>, events: seq<Event>, i: nat, run: RunId, outcome: Outcome,
                                      percent: int)
    requires IsRun(states, events) && i < |states| && run in states[i].uploads
    requires states[i].uploads[run].runGeneration != states[i].generation
    ensures Finished(states[i], run, outcome) == states[i].(uploads := states[i].uploads - {run})
    ensures Progressed(states[i], states[i].uploads[run], percent) == states[i]
  {
    RunIsSound(states, events, i);
    assert UploadSound(states[i], run, states[i].uploads[run]);
    StaleFinish(states[i], run, outcome);
  }

  /** The items of the chat that are uploading. */
  function Work(s: Queue, c: ChatId): nat { Tally(PendingFor(s.pending, c), Uploading()) }

  /** The item's id is its own, so that failing or dropping it takes one item off the work. */
  lemma OneIsUploading(s: Queue, c: ChatId, j: nat, id: ItemId)
    requires ListsSound(s) && UploadingAt(PendingFor(s.pending, c), j, id)
    ensures Tally(PendingFor(s.pending, c), UploadingId(id)) == 1 && IndexOf(PendingFor(s.pending, c), id) == j
  {
    var list := PendingFor(s.pending, c);
    var i := IndexOf(list, id);
    assert IdSound(s, c, id);
    UploadingIdBelow(list, id);
    TallyHolds(list, j, UploadingId(id));
    assert HasId(list, id);
    if i < j {
      TallyHoldsBoth(list, i, j, ById(id));
    }
  }

  lemma LandingWorks(s: Queue, u: Upload, outcome: Outcome, j: nat)
    requires ListsSound(s) && UploadingAt(PendingFor(s.pending, u.chatId), j, u.itemId) && IsLive(s, u)
    ensures Work(Landed(s, u, outcome), u.chatId) == Work(s, u.chatId) - 1
  {
    var list := PendingFor(s.pending, u.chatId);
    OneIsUploading(s, u.chatId, j, u.itemId);
    match outcome
    case Failure =>
      FailTally(list, u.itemId);
      ListsAfter(s.pending, u.chatId, Patched(list, u.itemId, Changes(Some(false), None)), u.chatId);
    case Sent(_) =>
      TallyCut(list, j, Uploading());
      ListsAfter(s.pending, u.chatId, Cut(list, j), u.chatId);
  }

  lemma DrainKeepsLists(s: Queue, c: ChatId, run: RunId, generation: nat)
    ensures Drained(s, c, run, generation).pending == s.pending
  {
  }

  lemma UploadGetsWorkDone(s: Queue, run: RunId, outcome: Outcome)
    requires Sound(s) && run in s.uploads && s.uploads[run].runGeneration == s.generation
    ensures var u, t := s.uploads[run], Finished(s, run, outcome);
            && Work(t, u.chatId) == Work(s, u.chatId) - 1
            && forall c | c != u.chatId :: PendingFor(t.pending, c) == PendingFor(s.pending, c)
  {
    var u, v := s.uploads[run], s.(uploads := s.uploads - {run});
    assert UploadSound(s, run, u);
    OverIsPaused(s, run);
    var j :| UploadingAt(PendingFor(s.pending, u.chatId), j, u.itemId);
    assert HasId(PendingFor(s.pending, u.chatId), u.itemId) && IsLive(v, u);
    LandingWorks(v, u, outcome, j);
    LandedLists(v, u, outcome);
    DrainKeepsLists(Landed(v, u, outcome), u.chatId, run, u.runGeneration);
  }

  /** Whether an upload of this generation fails or succeeds, its chat has one uploading item less. */
  lemma EveryUploadGetsWorkDone(states: seq<Queue>, events: seq<Event>, i: nat, run: RunId, outcome: Outcome)
    requires IsRun(states, events) && i < |states| && run in states[i].uploads
    requires states[i].uploads[run].runGeneration == states[i].generation
    ensures var s, u := states[i], states[i].uploads[run];
            var t := Finished(s, run, outcome);
            && Work(t, u.chatId) == Work(s, u.chatId) - 1
            && forall c | c != u.chatId :: PendingFor(t.pending, c) == PendingFor(s.pending, c)
  {
    RunIsSound(states, events, i);
    UploadGetsWorkDone(states[i], run, outcome);
  }
}
