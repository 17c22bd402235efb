/**
 * The items of the upload queue one by one: which of them an event takes away, what it does to the others, in
 * which order they stand, where new ones come from and where their previews go.
 */
module AttachmentItems {
  import opened Options
  import opened Attachments
  import opened AttachmentLists
  import opened AttachmentTheorems
  import opened AttachmentRuns

  function ListOf(s: Queue, c: ChatId): seq<Pending> { PendingFor(s.pending, c) }

  /** The run uploads the item of the chat, and no reset has come between. */
  predicate IsOwn(s: Queue, run: RunId, c: ChatId, id: ItemId) {
    && run in s.uploads && s.uploads[run].runGeneration == s.generation
    && s.uploads[run].chatId == c && s.uploads[run].itemId == id
  }

  /** The item goes: it is sent, removed after it failed, or the session is over. */
  predicate Leaves(s: Queue, e: Event, c: ChatId, item: Pending) {
    match e
    case Reset => true
    case RemovePending(d, id) => d == c && id == item.id && !item.uploading
    case Finish(run, Sent(_)) => IsOwn(s, run, c, item.id)
    case _ => false
  }

  /** What an item that stays becomes. */
  function After(s: Queue, e: Event, c: ChatId, item: Pending): Pending {
    match e
    case Finish(run, Failure) => if IsOwn(s, run, c, item.id) then item.(uploading := false) else item
    case Retry(d, id) =>
      if d == c && id == item.id && !item.uploading then item.(uploading := true, progress := 0) else item
    case Progress(run, percent) => if IsOwn(s, run, c, item.id) then item.(progress := percent) else item
    case _ => item
  }

  /** The items that stay, in their order. */
  function Staying(s: Queue, e: Event, c: ChatId, list: seq<Pending>): seq<Pending> {
    if list == [] then []
    else
      var last := list[|list| - 1];
      Staying(s, e, c, list[..|list| - 1]) + if Leaves(s, e, c, last) then [] else [After(s, e, c, last)]
  }

  // ----- Kinds of change -----

  lemma {:induction false} AllStay(s: Queue, e: Event, c: ChatId, list: seq<Pending>)
    requires forall i | 0 <= i < |list| :: !Leaves(s, e, c, list[i]) && After(s, e, c, list[i]) == list[i]
    ensures Staying(s, e, c, list) == list
  {
    if list != [] {
      AllStay(s, e, c, list[..|list| - 1]);
    }
  }

  lemma {:induction false} NoneStays(s: Queue, c: ChatId, list: seq<Pending>)
    ensures Staying(s, Reset, c, list) == []
  {
    if list != [] {
      NoneStays(s, c, list[..|list| - 1]);
    }
  }

  lemma {:induction false} PatchedStay(s: Queue, e: Event, c: ChatId, list: seq<Pending>, id: ItemId,
                                       changes: Changes)
    requires forall i | 0 <= i < |list| ::
               && !Leaves(s, e, c, list[i])
               && After(s, e, c, list[i]) == if list[i].id == id then Change(list[i], changes) else list[i]
    ensures Staying(s, e, c, list) == Patched(list, id, changes)
  {
    if list != [] {
      PatchedStay(s, e, c, list[..|list| - 1], id, changes);
    }
  }

  lemma {:induction false} OthersStay(s: Queue, e: Event, c: ChatId, list: seq<Pending>, k: nat)
    requires k < |list|
    requires forall i | 0 <= i < |list| :: Leaves(s, e, c, list[i]) <==> i == k
    requires forall i | 0 <= i < |list| :: After(s, e, c, list[i]) == list[i]
    ensures Staying(s, e, c, list) == Cut(list, k)
  {
    var n := |list| - 1;
    if k == n {
      AllStay(s, e, c, list[..n]);
    } else {
      OthersStay(s, e, c, list[..n], k);
      assert Cut(list, k) == Cut(list[..n], k) + [list[n]];
    }
  }

  /** An id stands for one item of the list. */
  lemma OneOfItsId(s: Queue, c: ChatId, i: nat, j: nat)
    requires ListsSound(s) && i < |ListOf(s, c)| && j < |ListOf(s, c)| && ListOf(s, c)[i].id == ListOf(s, c)[j].id
    ensures i == j
  {
    var id := ListOf(s, c)[i].id;
    assert IdSound(s, c, id);
    if i != j {
      TallyHoldsBoth(ListOf(s, c), if i < j then i else j, if i < j then j else i, ById(id));
    }
  }

  // ----- Every event -----

  lemma SentAllList(s: Queue, d: ChatId, c: ChatId)
    ensures Kept(s.items, false) == [] ==> Moved(Kept(s.items, false), s.created, s.generation) == []
    ensures ListOf(SentAll(s, d), c)
            == ListOf(s, c) + if c == d then Moved(Kept(s.items, false), s.created, s.generation) else []
  {
    RunKeepsHolders(MovedOut(s, d), d);
    ListsAfter(s.pending, d, ListOf(s, d) + Moved(Kept(s.items, false), s.created, s.generation), c);
  }

  lemma RetriedList(s: Queue, d: ChatId, id: ItemId, c: ChatId)
    requires ListsSound(s)
    ensures ListOf(Retried(s, d, id), c) == Staying(s, Retry(d, id), c, ListOf(s, c))
  {
    var list, e, changes := ListOf(s, d), Retry(d, id), Changes(Some(true), Some(0));
    var i := IndexOf(list, id);
    if c == d && i < |list| && !list[i].uploading {
      forall j | 0 <= j < |list| && list[j].id == id ensures j == i {
        OneOfItsId(s, c, i, j);
      }
      PatchedStay(s, e, c, list, id, changes);
    } else {
      if c == d && i < |list| {
        forall j | 0 <= j < |list| && list[j].id == id ensures j == i {
          OneOfItsId(s, c, i, j);
        }
      }
      AllStay(s, e, c, ListOf(s, c));
    }
    RunKeepsHolders(PatchedAt(s, d, id, changes), d);
    ListsAfter(s.pending, d, Patched(list, id, changes), c);
  }

  lemma RemovedList(s: Queue, d: ChatId, id: ItemId, c: ChatId)
    requires ListsSound(s)
    ensures ListOf(RemovedPending(s, d, id), c) == Staying(s, Event.RemovePending(d, id), c, ListOf(s, c))
  {
    var list, e := ListOf(s, d), Event.RemovePending(d, id);
    var i := IndexOf(list, id);
    if i < |list| {
      forall j | 0 <= j < |list| && list[j].id == id ensures j == i {
        OneOfItsId(s, d, i, j);
      }
    }
    if i < |list| && !list[i].uploading {
      ListsAfter(s.pending, d, Cut(list, i), c);
      if c == d {
        OthersStay(s, e, c, list, i);
      } else {
        AllStay(s, e, c, ListOf(s, c));
      }
    } else {
      AllStay(s, e, c, ListOf(s, c));
    }
  }

  /** An upload of this generation is live. */
  lemma OwnIsLive(s: Queue, run: RunId)
    requires Sound(s) && run in s.uploads
    ensures IsLive(s, s.uploads[run]) || s.uploads[run].runGeneration != s.generation
    ensures s.uploads[run].runGeneration != s.generation ==> !IsLive(s, s.uploads[run])
    ensures s.uploads[run].runGeneration == s.generation ==>
              exists i :: UploadingAt(ListOf(s, s.uploads[run].chatId), i, s.uploads[run].itemId)
  {
    var u := s.uploads[run];
    assert UploadSound(s, run, u);
    if u.runGeneration == s.generation {
      var i :| UploadingAt(ListOf(s, u.chatId), i, u.itemId);
      assert HasId(s.pending[u.chatId], u.itemId);
    }
  }

  lemma ProgressedList(s: Queue, run: RunId, percent: int, c: ChatId)
    requires Sound(s) && run in s.uploads
    ensures ListOf(Progressed(s, s.uploads[run], percent), c) == Staying(s, Progress(run, percent), c, ListOf(s, c))
  {
    var u, e, changes := s.uploads[run], Progress(run, percent), Changes(None, Some(percent));
    var list := ListOf(s, u.chatId);
    var i := IndexOf(list, u.itemId);
    OwnIsLive(s, run);
    ListsAfter(s.pending, u.chatId, Patched(list, u.itemId, changes), c);
    if c == u.chatId && u.runGeneration == s.generation {
      forall j | 0 <= j < |list| && list[j].id == u.itemId ensures j == i {
        assert HasId(list, u.itemId);
        OneOfItsId(s, c, i, j);
      }
      PatchedStay(s, e, c, list, u.itemId, changes);
      PatchIs(list, u.itemId, changes);
    } else {
      AllStay(s, e, c, ListOf(s, c));
    }
  }

  lemma FinishedList(s: Queue, run: RunId, outcome: Outcome, c: ChatId)
    requires Sound(s) && run in s.uploads
    ensures ListOf(Finished(s, run, outcome), c) == Staying(s, Finish(run, outcome), c, ListOf(s, c))
  {
    var u, v, e := s.uploads[run], s.(uploads := s.uploads - {run}), Finish(run, outcome);
    var list := ListOf(s, u.chatId);
    if u.runGeneration != s.generation {
      StaleFinish(s, run, outcome);
      AllStay(s, e, c, ListOf(s, c));
    } else if c != u.chatId {
      OverIsPaused(s, run);
      LandedLists(v, u, outcome);
      DrainKeepsLists(Landed(v, u, outcome), u.chatId, run, u.runGeneration);
      AllStay(s, e, c, ListOf(s, c));
    } else {
      OwnIsLive(s, run);
      var j :| UploadingAt(list, j, u.itemId);
      OwnLandedList(s, run, outcome, j);
      DrainKeepsLists(Landed(v, u, outcome), u.chatId, run, u.runGeneration);
    }
  }

  lemma OwnLandedList(s: Queue, run: RunId, outcome: Outcome, j: nat)
    requires Sound(s) && run in s.uploads && s.uploads[run].runGeneration == s.generation
    requires UploadingAt(ListOf(s, s.uploads[run].chatId), j, s.uploads[run].itemId)
    ensures var u := s.uploads[run];
            ListOf(Landed(s.(uploads := s.uploads - {run}), u, outcome), u.chatId)
            == Staying(s, Finish(run, outcome), u.chatId, ListOf(s, u.chatId))
  {
    var u, e := s.uploads[run], Finish(run, outcome);
    var c, list := u.chatId, ListOf(s, u.chatId);
    OwnIsLive(s, run);
    OneIsUploading(s, c, j, u.itemId);
    forall k | 0 <= k < |list| && list[k].id == u.itemId ensures k == j {
      OneOfItsId(s, c, j, k);
    }
    match outcome
    case Failure =>
      PatchedStay(s, e, c, list, u.itemId, Changes(Some(false), None));
      ListsAfter(s.pending, c, Patched(list, u.itemId, Changes(Some(false), None)), c);
    case Sent(_) =>
      OthersStay(s, e, c, list, j);
      ListsAfter(s.pending, c, Cut(list, j), c);
  }

  /** After any event a chat's list is that of the items that stay, in their order, and then of the files just sent. */
  lemma ListAfterIs(s: Queue, e: Event, c: ChatId)
    requires Sound(s) && Enabled(s, e)
    ensures ListOf(Next(s, e), c)
            == Staying(s, e, c, ListOf(s, c))
               + if e == SendAll(c) then Moved(Kept(s.items, false), s.created, s.generation) else []
  {
    match e
    case SendAll(d) =>
      SentAllList(s, d, c);
      AllStay(s, e, c, ListOf(s, c));
    case Retry(d, id) => RetriedList(s, d, id, c);
    case RemovePending(d, id) => RemovedList(s, d, id, c);
    case Progress(run, percent) => ProgressedList(s, run, percent, c);
    case Finish(run, outcome) => FinishedList(s, run, outcome, c);
    case Reset => NoneStays(s, c, ListOf(s, c));
    case _ => AllStay(s, e, c, ListOf(s, c));
  }

  // ----- The tray -----

  lemma StagingFinds(items: seq<Staged>, k: nat)
    requires k < |items|
    ensures Staging(items, items[k].id) > 0
    ensures forall j | 0 <= j < |items| && items[j].id == items[k].id && j != k :: Staging(items, items[k].id) > 1
  {
    StagingIsCount(items, k);
    forall j | 0 <= j < |items| && items[j].id == items[k].id && j != k ensures Staging(items, items[k].id) > 1 {
      StagingIsTwo(items, if j < k then j else k, if j < k then k else j);
    }
  }

  lemma {:induction false} StagingIsCount(items: seq<Staged>, k: nat)
    requires k < |items|
    ensures Staging(items, items[k].id) > 0
  {
    if k < |items| - 1 {
      StagingIsCount(items[..|items| - 1], k);
    }
  }

  lemma {:induction false} StagingIsTwo(items: seq<Staged>, j: nat, k: nat)
    requires j < k < |items| && items[j].id == items[k].id
    ensures Staging(items, items[k].id) > 1
  {
    var n := |items| - 1;
    if k < n {
      StagingIsTwo(items[..n], j, k);
    } else {
      StagingIsCount(items[..n], j);
    }
  }

  lemma {:induction false} NothingRemoved(items: seq<Staged>, id: ItemId)
    requires forall k | 0 <= k < |items| :: items[k].id != id
    ensures WithoutItem(items, id) == items
  {
    if items != [] {
      NothingRemoved(items[..|items| - 1], id);
    }
  }

  lemma {:induction false} OneRemoved(items: seq<Staged>, k: nat)
    requires k < |items| && forall j | 0 <= j < |items| && j != k :: items[j].id != items[k].id
    ensures WithoutItem(items, items[k].id) == items[..k] + items[k + 1..]
  {
    var n := |items| - 1;
    if k < n {
      OneRemoved(items[..n], k);
      assert items[..k] + items[k + 1..] == items[..n][..k] + items[..n][k + 1..] + [items[n]];
    } else {
      NothingRemoved(items[..n], items[k].id);
    }
  }

  /** A file that is removed leaves all the others where they are, in their order. */
  lemma RemovedFileLeavesTheTray(s: Queue, k: nat)
    requires Sound(s) && k < |s.items|
    ensures Next(s, RemoveStaged(s.items[k].id)) == s.(items := s.items[..k] + s.items[k + 1..])
  {
    assert IdSound(s, 0, s.items[k].id);
    StagingFinds(s.items, k);
    OneRemoved(s.items, k);
  }

  /** What else changes the tray: a new file is put last, under an id of its own; a clear and a reset empty it. */
  lemma TrayAfterIs(s: Queue, e: Event)
    requires Sound(s) && Enabled(s, e) && !e.SendAll? && !e.RemoveStaged?
    ensures var t := Next(s, e);
            match e
            case Add(previews, refused) =>
              && |t.items| == |s.items| + 1 && s.items <= t.items
              && t.items[|s.items|].previews == previews && t.items[|s.items|].refused == refused
              && forall k | 0 <= k < |s.items| :: s.items[k].id != t.items[|s.items|].id
            case ClearTray => t.items == []
            case Reset => t.items == []
            case _ => t.items == s.items
  {
    match e
    case Add(_, _) =>
      forall k | 0 <= k < |s.items| ensures s.items[k].id != s.lastId + 1 {
        assert IdSound(s, 0, s.items[k].id);
        StagingFinds(s.items, k);
      }
    case Retry(c, id) => RunKeepsTray(PatchedAt(s, c, id, Changes(Some(true), Some(0))), c);
    case Finish(run, outcome) => FinishKeepsTray(s, run, outcome);
    case _ =>
  }

  lemma FinishKeepsTray(s: Queue, run: RunId, outcome: Outcome)
    requires run in s.uploads
    ensures Finished(s, run, outcome).items == s.items
  {
    var u, v := s.uploads[run], s.(uploads := s.uploads - {run});
    LandingKeepsTray(v, u, outcome);
    DrainKeepsTray(Landed(v, u, outcome), u.chatId, run, u.runGeneration);
  }

  lemma LandingKeepsTray(s: Queue, u: Upload, outcome: Outcome)
    ensures Landed(s, u, outcome).items == s.items
  {
  }

  lemma DrainKeepsTray(s: Queue, c: ChatId, run: RunId, generation: nat)
    ensures Drained(s, c, run, generation).items == s.items
  {
  }

  // ----- Files that are sent -----

  /** How many of the files are refused, or how many are not. */
  function Count(items: seq<Staged>, refused: bool): nat {
    if items == [] then 0
    else Count(items[..|items| - 1], refused) + if items[|items| - 1].refused == refused then 1 else 0
  }

  lemma {:induction false} KeptLength(items: seq<Staged>, refused: bool)
    ensures |Kept(items, refused)| == Count(items, refused)
  {
    if items != [] {
      KeptLength(items[..|items| - 1], refused);
    }
  }

  lemma {:induction false} KeptAt(items: seq<Staged>, refused: bool, k: nat)
    requires k < |items| && items[k].refused == refused
    ensures Count(items[..k], refused) < |Kept(items, refused)|
    ensures Kept(items, refused)[Count(items[..k], refused)] == items[k]
  {
    var n := |items| - 1;
    if k < n {
      KeptAt(items[..n], refused, k);
      assert items[..n][..k] == items[..k];
    } else {
      KeptLength(items[..n], refused);
    }
  }

  lemma {:induction false} AllKept(items: seq<Staged>)
    requires Kept(items, false) == []
    ensures Kept(items, true) == items
  {
    if items != [] {
      AllKept(items[..|items| - 1]);
    }
  }

  /** A file on its way: uploading from the start, with a preview of its own when its kind has one. */
  predicate IsSentFrom(item: Pending, file: Staged, s: Queue, t: Queue) {
    && item.id == file.id && item.uploading && item.progress == 0 && item.generation == s.generation
    && (item.previewUrl.Some? <==> file.previews)
    && (item.previewUrl.Some? ==> s.created <= item.previewUrl.value < t.created)
  }

  lemma {:induction false} PreviewsBelow(moving: seq<Staged>, n: nat)
    requires n < |moving|
    ensures Previews(moving[..n]) + (if moving[n].previews then 1 else 0) <= Previews(moving)
  {
    var m := |moving| - 1;
    if n < m {
      PreviewsBelow(moving[..m], n);
      assert moving[..m][..n] == moving[..n];
    }
  }

  lemma {:induction false} MovedIs(moving: seq<Staged>, created: nat, generation: nat, n: nat)
    requires n < |moving|
    ensures n < |Moved(moving, created, generation)|
    ensures Moved(moving, created, generation)[n]
            == Pending(moving[n].id, if moving[n].previews then Some(created + Previews(moving[..n])) else None,
                       true, 0, generation)
  {
    var m := |moving| - 1;
    MovedAre(moving[..m], created, generation);
    if n < m {
      MovedIs(moving[..m], created, generation, n);
      assert moving[..m][..n] == moving[..n];
    }
  }

  /** Where the sent files stand: behind the list as it was. */
  lemma SentList(s: Queue, c: ChatId)
    ensures ListOf(SentAll(s, c), c) == ListOf(s, c) + Moved(Kept(s.items, false), s.created, s.generation)
    ensures |Moved(Kept(s.items, false), s.created, s.generation)| == Count(s.items, false)
  {
    KeptLength(s.items, false);
    MovedAre(Kept(s.items, false), s.created, s.generation);
    SentAllList(s, c, c);
  }

  lemma SentTray(s: Queue, c: ChatId)
    ensures SentAll(s, c).items == Kept(s.items, true)
    ensures SentAll(s, c).created == s.created + Previews(Kept(s.items, false))
  {
    if Kept(s.items, false) == [] {
      AllKept(s.items);
    }
    RunKeepsTray(MovedOut(s, c), c);
  }

  lemma SentFile(items: seq<Staged>, k: nat, s: Queue, t: Queue)
    requires k < |items| && !items[k].refused && t.created == s.created + Previews(Kept(items, false))
    ensures Count(items[..k], false) < |Moved(Kept(items, false), s.created, s.generation)|
    ensures IsSentFrom(Moved(Kept(items, false), s.created, s.generation)[Count(items[..k], false)], items[k], s, t)
  {
    KeptAt(items, false, k);
    MovedAre(Kept(items, false), s.created, s.generation);
    MovedIs(Kept(items, false), s.created, s.generation, Count(items[..k], false));
    PreviewsBelow(Kept(items, false), Count(items[..k], false));
  }

  /** A refused file of the tray stays there, in the tray's order. */
  lemma RefusedFilesStay(s: Queue, c: ChatId, k: nat)
    requires k < |s.items| && s.items[k].refused
    ensures |Next(s, SendAll(c)).items| == Count(s.items, true)
    ensures var n := Count(s.items[..k], true); n < Count(s.items, true) && Next(s, SendAll(c)).items[n] == s.items[k]
  {
    SentTray(s, c);
    KeptLength(s.items, true);
    KeptAt(s.items, true, k);
  }

  /** Any other joins the chat's list, in the tray's order. */
  lemma SentFilesJoinTheList(s: Queue, c: ChatId, k: nat)
    requires k < |s.items| && !s.items[k].refused
    ensures |ListOf(Next(s, SendAll(c)), c)| == |ListOf(s, c)| + Count(s.items, false)
    ensures var t, n := Next(s, SendAll(c)), |ListOf(s, c)| + Count(s.items[..k], false);
            n < |ListOf(t, c)| && IsSentFrom(ListOf(t, c)[n], s.items[k], s, t)
  {
    var moved, n := Moved(Kept(s.items, false), s.created, s.generation), Count(s.items[..k], false);
    SentList(s, c);
    SentTray(s, c);
    SentFile(s.items, k, s, SentAll(s, c));
    assert (ListOf(s, c) + moved)[|ListOf(s, c)| + n] == moved[n];
  }

  /** The list as it was stands in front of them. */
  lemma SentFilesGoBehind(s: Queue, c: ChatId)
    ensures ListOf(s, c) <= ListOf(Next(s, SendAll(c)), c)
  {
    SentList(s, c);
  }

  lemma RunKeepsTray(s: Queue, c: ChatId)
    ensures Running(s, c).items == s.items && Running(s, c).created == s.created
  {
  }

  // ----- Uploads -----

  /** The upload of the chat's first item that is to be uploaded. */
  ghost predicate IsOfTheFirst(s: Queue, u: Upload) {
    && u.itemGeneration == u.runGeneration == s.generation
    && exists n :: UploadingAt(ListOf(s, u.chatId), n, u.itemId)
                   && forall m | 0 <= m < n :: !ListOf(s, u.chatId)[m].uploading
  }

  lemma DrainedUpload(s: Queue, c: ChatId, run: RunId, generation: nat)
    requires ListsSound(s) && run !in s.uploads
    ensures Drained(s, c, run, generation).uploads - {run} == s.uploads
    ensures run in Drained(s, c, run, generation).uploads ==>
              IsOfTheFirst(Drained(s, c, run, generation), Drained(s, c, run, generation).uploads[run])
  {
    var list, t := ListOf(s, c), Drained(s, c, run, generation);
    var i := FirstUploading(list);
    assert t.uploads - {run} == s.uploads;
    if run in t.uploads {
      assert IsCurrent(list, s.generation);
      assert UploadingAt(ListOf(t, c), i, list[i].id);
    }
  }

  lemma RunningUpload(s: Queue, c: ChatId)
    requires ListsSound(s) && UploadsSound(s)
    ensures var t := Running(s, c).uploads;
            && (forall run | run in s.uploads :: run in t && t[run] == s.uploads[run])
            && (forall run | run in t && run !in s.uploads :: IsOfTheFirst(Running(s, c), t[run]))
  {
    if c !in s.runs {
      var run := s.lastRun + 1;
      var t := s.(runs := s.runs[c := run], lastRun := run);
      assert run in s.uploads ==> UploadSound(s, run, s.uploads[run]);
      assert ListsSound(t) by {
        assert forall d, id :: IdSound(s, d, id) ==> IdSound(t, d, id);
      }
      DrainedUpload(t, c, run, s.generation);
      assert forall r | r in s.uploads :: r in Running(s, c).uploads - {run};
    }
  }

  lemma FinishedUpload(s: Queue, run: RunId, outcome: Outcome)
    requires Sound(s) && run in s.uploads
    ensures Finished(s, run, outcome).uploads - {run} == s.uploads - {run}
    ensures run in Finished(s, run, outcome).uploads ==>
              IsOfTheFirst(Finished(s, run, outcome), Finished(s, run, outcome).uploads[run])
  {
    var u, v := s.uploads[run], s.(uploads := s.uploads - {run});
    assert ListsSound(v) by {
      assert forall d, id :: IdSound(s, d, id) ==> IdSound(v, d, id);
    }
    LandedLists(v, u, outcome);
    DrainedUpload(Landed(v, u, outcome), u.chatId, run, u.runGeneration);
  }

  /** An upload goes on until its own end; one that begins is of the first item of its chat that is to be uploaded. */
  lemma UploadsBeginInOrder(s: Queue, e: Event, run: RunId)
    requires Sound(s) && Enabled(s, e)
    ensures var t := Next(s, e);
            if run in s.uploads && !(e.Finish? && e.run == run)
            then run in t.uploads && t.uploads[run] == s.uploads[run]
            else run in t.uploads ==> IsOfTheFirst(t, t.uploads[run])
  {
    match e
    case SendAll(c) =>
      MoveKeepsLists(s, c);
      MoveStays(s, c);
      StayingKeepsRuns(s, MovedOut(s, c));
      RunningUpload(MovedOut(s, c), c);
    case Retry(c, id) =>
      var changes := Changes(Some(true), Some(0));
      PatchKeepsLists(s, c, id, changes);
      PatchStays(s, c, id, changes);
      StayingKeepsRuns(s, PatchedAt(s, c, id, changes));
      RunningUpload(PatchedAt(s, c, id, changes), c);
    case Finish(r, outcome) =>
      FinishedUpload(s, r, outcome);
      assert run != r ==> (run in Next(s, e).uploads - {r} <==> run in s.uploads - {r});
    case _ =>
  }

  // ----- Previews -----

  /** The preview that the row shows, if any. */
  function Shown(s: Queue, uuid: Uuid): multiset<Url> {
    if uuid in s.placeholders then multiset{s.placeholders[uuid]} else multiset{}
  }

  /** The row of a sent file shows its preview from now on; without a row, or on removal, the preview is revoked. */
  lemma PreviewOfTheSent(s: Queue, run: RunId, uuid: Option<Uuid>, i: nat)
    requires Sound(s) && run in s.uploads && s.uploads[run].runGeneration == s.generation
    requires UploadingAt(ListOf(s, s.uploads[run].chatId), i, s.uploads[run].itemId)
    ensures var t, url := Next(s, Finish(run, Sent(uuid))), ListOf(s, s.uploads[run].chatId)[i].previewUrl;
            if url.None? then t.placeholders == s.placeholders && t.revoked == s.revoked
            else if uuid.None? then t.placeholders == s.placeholders && t.revoked == s.revoked + multiset{url.value}
            else t.placeholders == s.placeholders[uuid.value := url.value]
                 && t.revoked == s.revoked + Shown(s, uuid.value)
  {
    var u, v := s.uploads[run], s.(uploads := s.uploads - {run});
    OwnIsLive(s, run);
    OneIsUploading(s, u.chatId, i, u.itemId);
    DrainKeepsHolders(Landed(v, u, Sent(uuid)), u.chatId, run, u.runGeneration);
  }

  lemma PreviewOfTheRemoved(s: Queue, c: ChatId, i: nat)
    requires Sound(s) && i < |ListOf(s, c)| && !ListOf(s, c)[i].uploading
    ensures var t, url := Next(s, Event.RemovePending(c, ListOf(s, c)[i].id)), ListOf(s, c)[i].previewUrl;
            && t.placeholders == s.placeholders
            && t.revoked == s.revoked + if url.Some? then multiset{url.value} else multiset{}
  {
    OneOfItsId(s, c, i, IndexOf(ListOf(s, c), ListOf(s, c)[i].id));
  }

  lemma UnsentKeepsHolders(s: Queue, run: RunId, outcome: Outcome)
    requires Sound(s) && run in s.uploads
    ensures outcome.Failure? || s.uploads[run].runGeneration != s.generation ==>
              s.placeholders == Finished(s, run, outcome).placeholders && s.revoked == Finished(s, run, outcome).revoked
  {
    if s.uploads[run].runGeneration != s.generation {
      StaleFinish(s, run, outcome);
    } else {
      var u, v := s.uploads[run], s.(uploads := s.uploads - {run});
      DrainKeepsHolders(Landed(v, u, outcome), u.chatId, run, u.runGeneration);
    }
  }

  /** Nothing else touches a row's preview, except its release and the end of the session. */
  lemma PlaceholdersStay(s: Queue, e: Event)
    requires Sound(s) && Enabled(s, e)
    ensures var t := Next(s, e);
            match e
            case Reset => t.placeholders == map[]
            case ReleasePlaceholder(uuid) => t.placeholders == s.placeholders - {uuid}
            case Finish(run, outcome) =>
              outcome.Failure? || s.uploads[run].runGeneration != s.generation ==>
                t.placeholders == s.placeholders && t.revoked == s.revoked
            case _ => t.placeholders == s.placeholders && (e.RemovePending? || t.revoked == s.revoked)
  {
    match e
    case SendAll(c) => RunKeepsHolders(MovedOut(s, c), c);
    case Retry(c, id) => RunKeepsHolders(PatchedAt(s, c, id, Changes(Some(true), Some(0))), c);
    case Finish(run, outcome) => UnsentKeepsHolders(s, run, outcome);
    case _ =>
  }

  // ----- Over runs -----

  /** The item stands in the chat's list, whatever its progress and state. */
  predicate StandsAt(s: Queue, c: ChatId, n: int, item: Pending) {
    && 0 <= n < |ListOf(s, c)| && ListOf(s, c)[n].id == item.id
    && ListOf(s, c)[n].previewUrl == item.previewUrl && ListOf(s, c)[n].generation == item.generation
  }

  ghost predicate Stands(s: Queue, c: ChatId, item: Pending) { exists n :: StandsAt(s, c, n, item) }

  ghost predicate IsTakenAway(s: Queue, e: Event, c: ChatId, item: Pending) {
    exists n :: StandsAt(s, c, n, item) && Leaves(s, e, c, ListOf(s, c)[n])
  }

  lemma {:induction false} StayingHolds(s: Queue, e: Event, c: ChatId, list: seq<Pending>, i: nat) returns (n: nat)
    requires i < |list| && !Leaves(s, e, c, list[i])
    ensures n <= i && n < |Staying(s, e, c, list)| && Staying(s, e, c, list)[n] == After(s, e, c, list[i])
  {
    var m := |list| - 1;
    if i < m {
      n := StayingHolds(s, e, c, list[..m], i);
    } else {
      n := |Staying(s, e, c, list[..m])|;
      StayingIsShorter(s, e, c, list[..m]);
    }
  }

  lemma {:induction false} StayingIsShorter(s: Queue, e: Event, c: ChatId, list: seq<Pending>)
    ensures |Staying(s, e, c, list)| <= |list|
  {
    if list != [] {
      StayingIsShorter(s, e, c, list[..|list| - 1]);
    }
  }

  lemma StandsOn(s: Queue, e: Event, c: ChatId, item: Pending)
    requires Sound(s) && Enabled(s, e) && Stands(s, c, item) && !IsTakenAway(s, e, c, item)
    ensures Stands(Next(s, e), c, item)
  {
    var i :| StandsAt(s, c, i, item);
    ListAfterIs(s, e, c);
    var n := StayingHolds(s, e, c, ListOf(s, c), i);
    assert StandsAt(Next(s, e), c, n, item);
  }

  /** An item stays in its chat's list, with its preview, until it is sent, removed after it failed, or a reset. */
  lemma {:induction false} ItemStaysUntilTakenAway(states: seq<Queue>, events: seq<Event>, i: nat, j: nat, c: ChatId,
                                                   item: Pending)
    requires IsRun(states, events) && i <= j < |states| && Stands(states[i], c, item)
    ensures Stands(states[j], c, item) || exists m :: i <= m < j && IsTakenAway(states[m], events[m], c, item)
    decreases j - i
  {
    if i < j && !IsTakenAway(states[i], events[i], c, item) {
      RunIsSound(states, events, i);
      StandsOn(states[i], events[i], c, item);
      ItemStaysUntilTakenAway(states, events, i + 1, j, c, item);
    }
  }

  predicate FailedAt(s: Queue, c: ChatId, n: int,
                     id: ItemId) { 0 <= n < |ListOf(s, c)| && ListOf(s, c)[n].id == id && !ListOf(s, c)[n].uploading }

  ghost predicate HasFailed(s: Queue, c: ChatId, id: ItemId) { exists n :: FailedAt(s, c, n, id) }

  /** In every run, a file whose upload fails is still in its chat's list, as failed. */
  lemma FailedUploadStays(states: seq<Queue>, events: seq<Event>, i: nat, run: RunId)
    requires IsRun(states, events) && i < |events| && events[i] == Finish(run, Failure)
    requires states[i].uploads[run].runGeneration == states[i].generation
    ensures HasFailed(states[i + 1], states[i].uploads[run].chatId, states[i].uploads[run].itemId)
  {
    var s, u := states[i], states[i].uploads[run];
    RunIsSound(states, events, i);
    OwnIsLive(s, run);
    var k :| UploadingAt(ListOf(s, u.chatId), k, u.itemId);
    ListAfterIs(s, events[i], u.chatId);
    var n := StayingHolds(s, events[i], u.chatId, ListOf(s, u.chatId), k);
    assert FailedAt(states[i + 1], u.chatId, n, u.itemId);
  }

  /** In every reachable state, retrying a failed item has it uploading from nothing again, in a chat with a run. */
  lemma RetryUploadsAgain(states: seq<Queue>, events: seq<Event>, i: nat, c: ChatId, n: nat, id: ItemId)
    requires IsRun(states, events) && i < |states| && FailedAt(states[i], c, n, id)
    ensures var t := Next(states[i], Retry(c, id));
            && (exists k :: UploadingAt(ListOf(t, c), k, id) && ListOf(t, c)[k].progress == 0
                            && ListOf(t, c)[k].previewUrl == ListOf(states[i], c)[n].previewUrl)
            && c in t.runs && t.runs[c] in t.uploads && t.uploads[t.runs[c]].chatId == c
  {
    var s, t := states[i], Next(states[i], Retry(c, id));
    RunIsSound(states, events, i);
    ListAfterIs(s, Retry(c, id), c);
    var k := StayingHolds(s, Retry(c, id), c, ListOf(s, c), n);
    assert UploadingAt(ListOf(t, c), k, id);
    NextIsSound(s, Retry(c, id));
    assert HasUploading(PendingFor(t.pending, c)) && RunSound(t, c);
  }

  // ----- One chat for an item -----

  ghost predicate InOneChat(s: Queue) {
    forall c, d, i, j | 0 <= i < |ListOf(s, c)| && 0 <= j < |ListOf(s, d)| ::
      ListOf(s, c)[i].id == ListOf(s, d)[j].id ==> c == d
  }

  lemma {:induction false} StayingComes(s: Queue, e: Event, c: ChatId, list: seq<Pending>, n: nat) returns (i: nat)
    requires n < |Staying(s, e, c, list)|
    ensures i < |list| && list[i].id == Staying(s, e, c, list)[n].id
  {
    var m := |list| - 1;
    if n < |Staying(s, e, c, list[..m])| {
      i := StayingComes(s, e, c, list[..m], n);
    } else {
      i := m;
    }
  }

  lemma MovedFrom(items: seq<Staged>, created: nat, generation: nat, k: nat)
    requires k < |Moved(Kept(items, false), created, generation)|
    ensures Staging(items, Moved(Kept(items, false), created, generation)[k].id) > 0
  {
    var moved := Moved(Kept(items, false), created, generation);
    MovedIds(Kept(items, false), created, generation, moved[k].id);
    TallyHolds(moved, k, ById(moved[k].id));
    TraySplits(items, moved[k].id);
  }

  /** The list holds the id, or the chat is sent the tray that holds it. */
  ghost predicate ComesFrom(s: Queue, e: Event, c: ChatId, id: ItemId) {
    (exists i :: 0 <= i < |ListOf(s, c)| && ListOf(s, c)[i].id == id) || (e == SendAll(c) && Staging(s.items, id) > 0)
  }

  lemma MovedComesFrom(s: Queue, c: ChatId, list: seq<Pending>, n: nat)
    requires list == ListOf(s, c) + Moved(Kept(s.items, false), s.created, s.generation) && n < |list|
    ensures ComesFrom(s, SendAll(c), c, list[n].id)
  {
    if n >= |ListOf(s, c)| {
      MovedFrom(s.items, s.created, s.generation, n - |ListOf(s, c)|);
    }
  }

  /** An item of the new list was in the old one, or in the tray and nowhere else. */
  lemma WhereFrom(s: Queue, e: Event, c: ChatId, n: nat)
    requires Sound(s) && Enabled(s, e) && n < |ListOf(Next(s, e), c)|
    ensures ComesFrom(s, e, c, ListOf(Next(s, e), c)[n].id)
  {
    ListAfterIs(s, e, c);
    if e == SendAll(c) {
      SentAllList(s, c, c);
      MovedComesFrom(s, c, ListOf(Next(s, e), c), n);
    } else {
      assert ListOf(Next(s, e), c) == Staying(s, e, c, ListOf(s, c));
      var i := StayingComes(s, e, c, ListOf(s, c), n);
    }
  }

  lemma StaysInOneChat(s: Queue, e: Event)
    requires Sound(s) && Enabled(s, e) && InOneChat(s)
    ensures InOneChat(Next(s, e))
  {
    var t := Next(s, e);
    forall c, d, i, j | 0 <= i < |ListOf(t, c)| && 0 <= j < |ListOf(t, d)| && ListOf(t, c)[i].id == ListOf(t, d)[j].id
      ensures c == d
    {
      var id := ListOf(t, c)[i].id;
      WhereFrom(s, e, c, i);
      WhereFrom(s, e, d, j);
      assert IdSound(s, c, id) && IdSound(s, d, id);
      if x :| 0 <= x < |ListOf(s, c)| && ListOf(s, c)[x].id == id {
        TallyHolds(ListOf(s, c), x, ById(id));
      }
      if y :| 0 <= y < |ListOf(s, d)| && ListOf(s, d)[y].id == id {
        TallyHolds(ListOf(s, d), y, ById(id));
      }
    }
  }

  /** In every reachable state an id is that of one pending item, in one chat. */
  lemma {:induction false} ItemIsInOneChat(states: seq<Queue>, events: seq<Event>, i: nat, c: ChatId, d: ChatId,
                                           m: nat, n: nat)
    requires IsRun(states, events) && i < |states| && m < |ListOf(states[i], c)| && n < |ListOf(states[i], d)|
    requires ListOf(states[i], c)[m].id == ListOf(states[i], d)[n].id
    ensures c == d && m == n
  {
    RunIsSound(states, events, i);
    RunIsInOneChat(states, events, i);
    OneOfItsId(states[i], c, m, n);
  }

  lemma {:induction false} RunIsInOneChat(states: seq<Queue>, events: seq<Event>, i: nat)
    requires IsRun(states, events) && i < |states|
    ensures InOneChat(states[i])
  {
    if i > 0 {
      RunIsInOneChat(states, events, i - 1);
      RunIsSound(states, events, i - 1);
      StaysInOneChat(states[i - 1], events[i - 1]);
    }
  }
}
