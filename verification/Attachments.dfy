/**
 * Uploads of the WhatsApp composer (frontend/app/services/wa-attachments.js): each chat's files go up one
 * at a time, a reset abandons what is under way, and every preview URL is revoked exactly once.
 */
module Attachments {
  import opened Options

  type ChatId = nat
  type ItemId = nat
  type Uuid = nat
  type Url = nat
  type RunId = nat

  /** A file in the tray; `previews` says that its kind gets a preview. */
  datatype Staged = Staged(id: ItemId, previews: bool, refused: bool)

  /** A file on its way; one that is not uploading has failed. */
  datatype Pending = Pending(id: ItemId, previewUrl: Option<Url>, uploading: bool, progress: int, generation: nat)

  type PendingByChat = map<ChatId, seq<Pending>>

  /** What a run waits for: the upload of an item, both with the generation they began in. */
  datatype Upload = Upload(chatId: ChatId, itemId: ItemId, itemGeneration: nat, runGeneration: nat)

  datatype Queue = Queue(items: seq<Staged>, lastId: nat, pending: PendingByChat, generation: nat,
                         runs: map<ChatId, RunId>, lastRun: nat, uploads: map<RunId, Upload>,
                         placeholders: map<Uuid, Url>, created: nat, revoked: multiset<Url>)

  const Queue0: Queue := Queue([], 0, map[], 0, map[], 0, map[], map[], 0, multiset{})

  // ----- Lists -----

  function PendingFor(pending: PendingByChat, c: ChatId): seq<Pending> { if c in pending then pending[c] else [] }

  function WithList(pending: PendingByChat, c: ChatId, list: seq<Pending>): PendingByChat {
    if list == [] then pending - {c} else pending[c := list]
  }

  predicate HasId(list: seq<Pending>, id: ItemId) { exists i :: 0 <= i < |list| && list[i].id == id }

  predicate IsFound(pending: PendingByChat, id: ItemId) { exists c | c in pending :: HasId(pending[c], id) }

  /** The position of the first item with the id; the length if there is none. */
  function IndexOf(list: seq<Pending>, id: ItemId): (i: nat)
    ensures i <= |list| && (i < |list| <==> HasId(list, id)) && (i < |list| ==> list[i].id == id)
    ensures forall j | 0 <= j < i :: list[j].id != id
  {
    if list == [] then 0
    else
      var n := |list| - 1;
      var i := IndexOf(list[..n], id);
      if i < n then i else if list[n].id == id then n else n + 1
  }

  function FirstUploading(list: seq<Pending>): (i: nat)
    ensures i <= |list| && (i < |list| ==> list[i].uploading) && forall j | 0 <= j < i :: !list[j].uploading
  {
    if list == [] then 0
    else
      var n := |list| - 1;
      var i := FirstUploading(list[..n]);
      if i < n then i else if list[n].uploading then n else n + 1
  }

  /** The fields to change; the others stay. */
  datatype Changes = Changes(uploading: Option<bool>, progress: Option<int>)

  function Change(item: Pending, changes: Changes): Pending {
    item.(uploading := changes.uploading.GetOr(item.uploading), progress := changes.progress.GetOr(item.progress))
  }

  function Patched(list: seq<Pending>, id: ItemId, changes: Changes): seq<Pending> {
    if list == [] then []
    else
      var last := list[|list| - 1];
      Patched(list[..|list| - 1], id, changes) + [if last.id == id then Change(last, changes) else last]
  }

  function Kept(items: seq<Staged>, refused: bool): seq<Staged> {
    if items == [] then []
    else
      var last := items[|items| - 1];
      Kept(items[..|items| - 1], refused) + if last.refused == refused then [last] else []
  }

  /** The previews that sending the files creates. */
  function Previews(moving: seq<Staged>): nat {
    if moving == [] then 0
    else Previews(moving[..|moving| - 1]) + if moving[|moving| - 1].previews then 1 else 0
  }

  /** The files on their way, with the next preview URLs. */
  function Moved(moving: seq<Staged>, created: nat, generation: nat): seq<Pending> {
    if moving == [] then []
    else
      var init, last := moving[..|moving| - 1], moving[|moving| - 1];
      Moved(init, created, generation)
      + [Pending(last.id, if last.previews then Some(created + Previews(init)) else None, true, 0, generation)]
  }

  // ----- Previews -----

  function UrlOf(item: Pending): multiset<Url> { if item.previewUrl.Some? then multiset{item.previewUrl.value} else multiset{} }

  function Urls(list: seq<Pending>): multiset<Url> {
    if list == [] then multiset{} else Urls(list[..|list| - 1]) + UrlOf(list[|list| - 1])
  }

  function One(url: Url): multiset<Url> { multiset{url} }

  ghost function Pick<T>(m: map<nat, T>): nat
    requires m != map[]
    ensures Pick(m) in m
  {
    var k: nat :| k in m; k
  }

  /** The URLs of all the entries of a map together. */
  ghost function Sum<T(!new)>(m: map<nat, T>, urls: T -> multiset<Url>): multiset<Url>
    decreases |m|
  {
    if m == map[] then multiset{}
    else urls(m[Pick(m)]) + Sum(m - {Pick(m)}, urls)
  }

  // ----- Steps -----

  function Added(s: Queue, previews: bool, refused: bool): Queue {
    s.(items := s.items + [Staged(s.lastId + 1, previews, refused)], lastId := s.lastId + 1)
  }

  function Removed(s: Queue, id: ItemId): Queue { s.(items := WithoutItem(s.items, id)) }

  function WithoutItem(items: seq<Staged>, id: ItemId): seq<Staged> {
    if items == [] then []
    else
      var last := items[|items| - 1];
      WithoutItem(items[..|items| - 1], id) + if last.id == id then [] else [last]
  }

  function ClearedTray(s: Queue): Queue { s.(items := []) }

  /** The end of a run: it unregisters itself, and nothing but itself. */
  function Ended(s: Queue, c: ChatId, run: RunId): Queue {
    if c in s.runs && s.runs[c] == run then s.(runs := s.runs - {c}) else s
  }

  /** One turn of a drain: the next upload, or the end. */
  function Drained(s: Queue, c: ChatId, run: RunId, generation: nat): Queue {
    var list := PendingFor(s.pending, c);
    var i := FirstUploading(list);
    if generation != s.generation || i == |list| then Ended(s, c, run)
    else s.(uploads := s.uploads[run := Upload(c, list[i].id, list[i].generation, generation)])
  }

  function Running(s: Queue, c: ChatId): Queue {
    if c in s.runs then s
    else
      var run := s.lastRun + 1;
      Drained(s.(runs := s.runs[c := run], lastRun := run), c, run, s.generation)
  }

  /** Every sendable file leaves the tray for the chat's list. */
  function MovedOut(s: Queue, c: ChatId): Queue {
    var moving := Kept(s.items, false);
    s.(items := Kept(s.items, true), created := s.created + Previews(moving),
       pending := WithList(s.pending, c, PendingFor(s.pending, c) + Moved(moving, s.created, s.generation)))
  }

  function SentAll(s: Queue, c: ChatId): Queue {
    if Kept(s.items, false) == [] then s else Running(MovedOut(s, c), c)
  }

  function PatchedAt(s: Queue, c: ChatId, id: ItemId, changes: Changes): Queue {
    s.(pending := WithList(s.pending, c, Patched(PendingFor(s.pending, c), id, changes)))
  }

  /** The item is the one found in the chat's list. */
  function Retried(s: Queue, c: ChatId, id: ItemId): Queue {
    var list := PendingFor(s.pending, c);
    var i := IndexOf(list, id);
    if i == |list| || list[i].uploading then s else Running(PatchedAt(s, c, id, Changes(Some(true), Some(0))), c)
  }

  function Released(s: Queue, uuid: Uuid): Queue {
    if uuid !in s.placeholders then s
    else s.(placeholders := s.placeholders - {uuid}, revoked := s.revoked + multiset{s.placeholders[uuid]})
  }

  /** The item's preview lives on as the row's placeholder, or is revoked. */
  function HandedOver(s: Queue, item: Pending, keepAs: Option<Uuid>): Queue {
    if keepAs.Some? && item.previewUrl.Some?
    then var u := Released(s, keepAs.value);
         u.(placeholders := u.placeholders[keepAs.value := item.previewUrl.value])
    else s.(revoked := s.revoked + UrlOf(item))
  }

  function Cut(list: seq<Pending>, i: nat): seq<Pending>
    requires i < |list|
  {
    list[..i] + list[i + 1..]
  }

  /** The item leaves its list. */
  function DroppedAt(s: Queue, c: ChatId, i: nat, keepAs: Option<Uuid>): Queue
    requires i < |PendingFor(s.pending, c)|
  {
    var list := PendingFor(s.pending, c);
    HandedOver(s, list[i], keepAs).(pending := WithList(s.pending, c, Cut(list, i)))
  }

  function Dropped(s: Queue, c: ChatId, id: ItemId, keepAs: Option<Uuid>): Queue {
    var i := IndexOf(PendingFor(s.pending, c), id);
    if i == |PendingFor(s.pending, c)| then s else DroppedAt(s, c, i, keepAs)
  }

  function RemovedPending(s: Queue, c: ChatId, id: ItemId): Queue {
    var list := PendingFor(s.pending, c);
    var i := IndexOf(list, id);
    if i == |list| || list[i].uploading then s else Dropped(s, c, id, None)
  }

  /** How an upload ends: an error, or the sent row, which may carry a uuid. */
  datatype Outcome = Failure | Sent(uuid: Option<Uuid>)

  predicate IsLive(s: Queue, u: Upload) { u.itemGeneration == s.generation && IsFound(s.pending, u.itemId) }

  function ProgressAt(s: Queue, c: ChatId, id: ItemId): int {
    var list := PendingFor(s.pending, c);
    var i := IndexOf(list, id);
    if i < |list| then list[i].progress else 0
  }

  /** What the end of an upload does to the queue, before its run goes on. */
  function Landed(s: Queue, u: Upload, outcome: Outcome): Queue {
    if !IsLive(s, u) then s
    else
      match outcome
      case Failure => PatchedAt(s, u.chatId, u.itemId, Changes(Some(false), None))
      case Sent(uuid) => Dropped(s, u.chatId, u.itemId, uuid)
  }

  function Finished(s: Queue, run: RunId, outcome: Outcome): Queue
    requires run in s.uploads
  {
    var u := s.uploads[run];
    Drained(Landed(s.(uploads := s.uploads - {run}), u, outcome), u.chatId, run, u.runGeneration)
  }

  function Progressed(s: Queue, u: Upload, progress: int): Queue {
    if !IsLive(s, u) || ProgressAt(s, u.chatId, u.itemId) == progress then s
    else PatchedAt(s, u.chatId, u.itemId, Changes(None, Some(progress)))
  }

  /** The revoked URLs and all that are still held. */
  ghost function Outstanding(s: Queue): multiset<Url> { s.revoked + Sum(s.pending, Urls) + Sum(s.placeholders, One) }

  /** A new generation: nothing is pending, and every preview still held is revoked. */
  ghost function ResetTo(s: Queue): Queue {
    s.(generation := s.generation + 1, runs := map[], pending := map[], placeholders := map[], items := [],
       revoked := Outstanding(s))
  }

  // ----- The service -----

  class WaAttachments {
    var items: seq<Staged>
    var lastId: nat
    var pendingByChat: PendingByChat
    var generation: nat
    var runs: map<ChatId, RunId>
    var lastRun: nat
    var uploads: map<RunId, Upload>
    var placeholderByUuid: map<Uuid, Url>
    var created: nat
    var revoked: multiset<Url>

    function Now(): Queue
      reads this
    {
      Queue(items, lastId, pendingByChat, generation, runs, lastRun, uploads, placeholderByUuid, created, revoked)
    }

    constructor ()
      ensures Now() == Queue0
    {
      items, lastId, pendingByChat, generation, runs, lastRun := [], 0, map[], 0, map[], 0;
      uploads, placeholderByUuid, created, revoked := map[], map[], 0, multiset{};
    }

    method Add(previews: bool, refused: bool)
      modifies this
      ensures Now() == Added(old(Now()), previews, refused)
    {
      lastId := lastId + 1;
      items := items + [Staged(lastId, previews, refused)];
    }

    method Clear()
      modifies this`items
      ensures Now() == ClearedTray(old(Now()))
    {
      if items != [] {
        items := [];
      }
    }

    method Remove(id: ItemId)
      modifies this
      ensures Now() == Removed(old(Now()), id)
    {
      items := WithoutItem(items, id);
    }

    method SetPending(c: ChatId, list: seq<Pending>)
      modifies this`pendingByChat
      ensures pendingByChat == WithList(old(pendingByChat), c, list)
    {
      if list != [] {
        pendingByChat := pendingByChat[c := list];
      } else {
        pendingByChat := pendingByChat - {c};
      }
    }

    /** The tray keeps its refused files only; the rest join the chat's list, and the chat has a run. */
    method SendAll(c: ChatId)
      modifies this
      ensures Now() == SentAll(old(Now()), c)
    {
      var moving := Kept(items, false);
      if moving == [] {
        return;
      }
      items := Kept(items, true);
      var pending := Previewed(moving);
      SetPending(c, PendingFor(pendingByChat, c) + pending);
      assert Now() == MovedOut(old(Now()), c);
      Run(c);
    }

    /** The files on their way, each previewed kind with an object URL of its own. */
    method Previewed(moving: seq<Staged>) returns (pending: seq<Pending>)
      modifies this`created
      ensures created == old(created) + Previews(moving) && pending == Moved(moving, old(created), generation)
    {
      pending := [];
      var i: nat := 0;
      while i < |moving|
        invariant i <= |moving|
        invariant created == old(created) + Previews(moving[..i])
                  && pending == Moved(moving[..i], old(created), generation)
      {
        assert moving[..i + 1][..i] == moving[..i];
        var url: Option<Url> := None;
        if moving[i].previews {
          url := Some(created);
          created := created + 1;
        }
        pending := pending + [Pending(moving[i].id, url, true, 0, generation)];
        i := i + 1;
      }
      assert moving[..i] == moving;
    }

    /** The chat whose list holds the item, and its position there. */
    method FindPending(id: ItemId) returns (at: Option<(ChatId, nat)>)
      ensures at.None? <==> !IsFound(pendingByChat, id)
      ensures at.Some? ==> at.value.0 in pendingByChat && HasId(pendingByChat[at.value.0], id)
                           && at.value.1 == IndexOf(pendingByChat[at.value.0], id)
    {
      var rest := pendingByChat.Keys;
      while rest != {}
        invariant rest <= pendingByChat.Keys
        invariant forall c | c in pendingByChat && c !in rest :: !HasId(pendingByChat[c], id)
        decreases |rest|
      {
        var c: ChatId :| c in rest;
        var i := IndexOf(pendingByChat[c], id);
        if i < |pendingByChat[c]| {
          return Some((c, i));
        }
        rest := rest - {c};
      }
      return None;
    }

    /** The chat of the item, if there is such an item. */
    method RetryPending(id: ItemId) returns (chat: Option<ChatId>)
      modifies this
      ensures chat.None? ==> !IsFound(old(pendingByChat), id) && Now() == old(Now())
      ensures chat.Some? ==> HasId(PendingFor(old(pendingByChat), chat.value), id) && Now() == Retried(old(Now()), chat.value, id)
    {
      var at := FindPending(id);
      if at.None? {
        return None;
      }
      var (c, i) := at.value;
      if !pendingByChat[c][i].uploading {
        PatchPending(c, id, Changes(Some(true), Some(0)));
        Run(c);
      }
      return Some(c);
    }

    method RemovePending(id: ItemId) returns (chat: Option<ChatId>)
      modifies this
      ensures chat.None? ==> !IsFound(old(pendingByChat), id) && Now() == old(Now())
      ensures chat.Some? ==> HasId(PendingFor(old(pendingByChat), chat.value), id)
                             && Now() == RemovedPending(old(Now()), chat.value, id)
    {
      var at := FindPending(id);
      if at.None? {
        return None;
      }
      var (c, i) := at.value;
      if !pendingByChat[c][i].uploading {
        DropPending(c, id, None);
      }
      return Some(c);
    }

    method PatchPending(c: ChatId, id: ItemId, changes: Changes)
      modifies this`pendingByChat
      ensures Now() == PatchedAt(old(Now()), c, id, changes)
    {
      SetPending(c, Patched(PendingFor(pendingByChat, c), id, changes));
    }

    method ReleasePlaceholder(uuid: Uuid)
      modifies this`placeholderByUuid, this`revoked
      ensures Now() == Released(old(Now()), uuid)
    {
      if uuid !in placeholderByUuid {
        return;
      }
      var url := placeholderByUuid[uuid];
      placeholderByUuid := placeholderByUuid - {uuid};
      revoked := revoked + multiset{url};
    }

    method DropPending(c: ChatId, id: ItemId, keepAs: Option<Uuid>)
      modifies this`pendingByChat, this`placeholderByUuid, this`revoked
      ensures Now() == Dropped(old(Now()), c, id, keepAs)
    {
      var list := PendingFor(pendingByChat, c);
      var i := IndexOf(list, id);
      if i == |list| {
        return;
      }
      HandOver(list[i], keepAs);
      SetPending(c, Cut(list, i));
    }

    /** The item's URL, if any, ends up under `keepAs`, or revoked when there is no such row. */
    method HandOver(item: Pending, keepAs: Option<Uuid>)
      modifies this`placeholderByUuid, this`revoked
      ensures Now() == HandedOver(old(Now()), item, keepAs)
    {
      if keepAs.Some? && item.previewUrl.Some? {
        ReleasePlaceholder(keepAs.value);
        placeholderByUuid := placeholderByUuid[keepAs.value := item.previewUrl.value];
      } else if item.previewUrl.Some? {
        revoked := revoked + multiset{item.previewUrl.value};
      }
    }

    /** One turn of the drain loop of a run. */
    method Drain(c: ChatId, run: RunId, began: nat)
      modifies this`runs, this`uploads
      ensures Now() == Drained(old(Now()), c, run, began)
    {
      if began == generation {
        var list := PendingFor(pendingByChat, c);
        var i := FirstUploading(list);
        if i < |list| {
          uploads := uploads[run := Upload(c, list[i].id, list[i].generation, began)];
          return;
        }
      }
      if c in runs && runs[c] == run {
        runs := runs - {c};
      }
    }

    method Run(c: ChatId)
      modifies this`runs, this`lastRun, this`uploads
      ensures Now() == Running(old(Now()), c)
    {
      if c in runs {
        return;
      }
      lastRun := lastRun + 1;
      runs := runs[c := lastRun];
      Drain(c, lastRun, generation);
    }

    /** The upload of a run is over; the run goes on. */
    method OnUpload(run: RunId, outcome: Outcome)
      requires run in uploads
      modifies this
      ensures Now() == Finished(old(Now()), run, outcome)
    {
      var u := uploads[run];
      uploads := uploads - {run};
      if u.itemGeneration == generation && IsFound(pendingByChat, u.itemId) {
        match outcome
        case Failure => PatchPending(u.chatId, u.itemId, Changes(Some(false), None));
        case Sent(uuid) => DropPending(u.chatId, u.itemId, uuid);
      }
      Drain(u.chatId, run, u.runGeneration);
    }

    method OnProgress(u: Upload, progress: int)
      modifies this`pendingByChat
      ensures Now() == Progressed(old(Now()), u, progress)
    {
      if u.itemGeneration == generation && IsFound(pendingByChat, u.itemId)
         && ProgressAt(Now(), u.chatId, u.itemId) != progress {
        PatchPending(u.chatId, u.itemId, Changes(None, Some(progress)));
      }
    }

    /** Nothing is pending or running afterwards, and no URL is held. */
    method Reset()
      modifies this
      ensures Now() == ResetTo(old(Now()))
    {
      BeginGeneration();
      placeholderByUuid := map[];
      pendingByChat := map[];
      Clear();
    }

    method BeginGeneration()
      modifies this`generation, this`runs, this`revoked
      ensures generation == old(generation) + 1 && runs == map[] && revoked == Outstanding(old(Now()))
    {
      ghost var s := Now();
      generation := generation + 1;
      runs := map[];
      RevokePreviews();
      assert revoked == Outstanding(s);
    }

    method RevokePreviews()
      modifies this`revoked
      ensures revoked == Outstanding(old(Now()))
    {
      RevokePending(pendingByChat);
      RevokePlaceholders(placeholderByUuid);
    }

    method RevokePending(pending: PendingByChat)
      modifies this`revoked
      ensures revoked == old(revoked) + Sum(pending, Urls)
    {
      var rest: PendingByChat := pending;
      while rest != map[]
        invariant revoked + Sum(rest, Urls) == old(revoked) + Sum(pending, Urls)
        decreases |rest|
      {
        var c: ChatId :| c in rest;
        SumSplit(rest, Urls, c);
        RevokeList(rest[c]);
        rest := rest - {c};
      }
    }

    method RevokeList(list: seq<Pending>)
      modifies this`revoked
      ensures revoked == old(revoked) + Urls(list)
    {
      var i: nat := 0;
      while i < |list|
        invariant i <= |list| && revoked == old(revoked) + Urls(list[..i])
      {
        assert list[..i + 1][..i] == list[..i];
        if list[i].previewUrl.Some? {
          revoked := revoked + multiset{list[i].previewUrl.value};
        }
        i := i + 1;
      }
      assert list[..i] == list;
    }

    method RevokePlaceholders(placeholders: map<Uuid, Url>)
      modifies this`revoked
      ensures revoked == old(revoked) + Sum(placeholders, One)
    {
      var rest: map<Uuid, Url> := placeholders;
      while rest != map[]
        invariant revoked + Sum(rest, One) == old(revoked) + Sum(placeholders, One)
        decreases |rest|
      {
        var uuid: Uuid :| uuid in rest;
        SumSplit(rest, One, uuid);
        revoked := revoked + multiset{rest[uuid]};
        rest := rest - {uuid};
      }
    }
  }

  /** A map's URLs are those of any one entry and of the rest. */
  lemma {:induction false} SumSplit<T(!new)>(m: map<nat, T>, urls: T -> multiset<Url>, k: nat)
    requires k in m
    ensures Sum(m, urls) == urls(m[k]) + Sum(m - {k}, urls)
    decreases |m|
  {
    var p := Pick(m);
    if p != k {
      SumSplit(m - {p}, urls, k);
      SumSplit(m - {k}, urls, p);
      assert m - {p} - {k} == m - {k} - {p};
    }
  }
}
