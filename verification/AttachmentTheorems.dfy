/**
 * What the upload queue keeps: every preview URL is held once or revoked once, one upload per chat and
 * generation, a run for every chat with work to do, and nothing that an abandoned upload can still change.
 */
module AttachmentTheorems {
  import opened Options
  import opened Attachments
  import opened AttachmentLists

  datatype Event =
    | Add(previews: bool, refused: bool)
    | RemoveStaged(itemId: ItemId)
    | ClearTray
    | SendAll(chatId: ChatId)
    | Retry(chatId: ChatId, itemId: ItemId)
    | RemovePending(chatId: ChatId, itemId: ItemId)
    | Progress(run: RunId, percent: int)
    | Finish(run: RunId, outcome: Outcome)
    | ReleasePlaceholder(uuid: Uuid)
    | Reset

  predicate Enabled(s: Queue, e: Event) {
    match e
    case Progress(run, _) => run in s.uploads
    case Finish(run, _) => run in s.uploads
    case _ => true
  }

  ghost function Next(s: Queue, e: Event): Queue
    requires Enabled(s, e)
  {
    match e
    case Add(previews, refused) => Added(s, previews, refused)
    case RemoveStaged(id) => Removed(s, id)
    case ClearTray => ClearedTray(s)
    case SendAll(c) => SentAll(s, c)
    case Retry(c, id) => Retried(s, c, id)
    case RemovePending(c, id) => RemovedPending(s, c, id)
    case Progress(run, percent) => Progressed(s, s.uploads[run], percent)
    case Finish(run, outcome) => Finished(s, run, outcome)
    case ReleasePlaceholder(uuid) => Released(s, uuid)
    case Reset => ResetTo(s)
  }

  ghost predicate IsRun(states: seq<Queue>, events: seq<Event>) {
    && |states| == |events| + 1 && states[0] == Queue0
    && forall i | 0 <= i < |events| :: Enabled(states[i], events[i]) && states[i + 1] == Next(states[i], events[i])
  }

  // ----- Preview URLs -----

  /** How often the URL is held or was revoked. */
  ghost function Times(s: Queue, url: Url): nat {
    Sum(s.pending, Urls)[url] + Sum(s.placeholders, One)[url] + s.revoked[url]
  }

  /** Each URL created so far is accounted for once. */
  ghost predicate Conserved(s: Queue, url: Url) { Times(s, url) == if url < s.created then 1 else 0 }

  lemma SumUpdate<T(!new)>(m: map<nat, T>, urls: T -> multiset<Url>, k: nat, v: T, url: Url)
    ensures Sum(m[k := v], urls)[url] == Sum(m - {k}, urls)[url] + urls(v)[url]
  {
    SumSplit(m[k := v], urls, k);
    assert m[k := v] - {k} == m - {k};
  }

  lemma SumWithout<T(!new)>(m: map<nat, T>, urls: T -> multiset<Url>, k: nat, url: Url)
    ensures Sum(m, urls)[url] == Sum(m - {k}, urls)[url] + if k in m then urls(m[k])[url] else 0
  {
    if k in m {
      SumSplit(m, urls, k);
    } else {
      assert m - {k} == m;
    }
  }

  /** A list replaced: its URLs go, the new ones come. */
  lemma ListUrls(pending: PendingByChat, c: ChatId, list: seq<Pending>, url: Url)
    ensures Sum(WithList(pending, c, list), Urls)[url] + Tally(PendingFor(pending, c), ByUrl(url))
            == Sum(pending, Urls)[url] + Tally(list, ByUrl(url))
  {
    SumWithout(pending, Urls, c, url);
    SumUpdate(pending, Urls, c, list, url);
    UrlsAreTallied(PendingFor(pending, c), url);
    UrlsAreTallied(list, url);
  }

  lemma PatchConserves(s: Queue, c: ChatId, id: ItemId, changes: Changes, url: Url)
    ensures Times(PatchedAt(s, c, id, changes), url) == Times(s, url)
  {
    var list := PendingFor(s.pending, c);
    PatchKeepsTally(list, id, changes, ByUrl(url));
    ListUrls(s.pending, c, Patched(list, id, changes), url);
  }

  lemma ReleaseConserves(s: Queue, uuid: Uuid, url: Url)
    ensures Times(Released(s, uuid), url) == Times(s, url)
  {
    SumWithout(s.placeholders, One, uuid, url);
  }

  lemma PlaceConserves(s: Queue, uuid: Uuid, placed: Url, url: Url)
    requires uuid !in s.placeholders
    ensures Times(s.(placeholders := s.placeholders[uuid := placed]), url) == Times(s, url) + if placed == url then 1 else 0
  {
    SumUpdate(s.placeholders, One, uuid, placed, url);
    assert s.placeholders - {uuid} == s.placeholders;
  }

  lemma WithListTimes(s: Queue, c: ChatId, list: seq<Pending>, url: Url)
    ensures Times(s.(pending := WithList(s.pending, c, list)), url) + Tally(PendingFor(s.pending, c), ByUrl(url))
            == Times(s, url) + Tally(list, ByUrl(url))
  {
    ListUrls(s.pending, c, list, url);
  }

  /** The preview moves to the row, or is revoked; the placeholder that it displaces is revoked. */
  lemma DropAtConserves(s: Queue, c: ChatId, i: nat, keepAs: Option<Uuid>, url: Url)
    requires i < |PendingFor(s.pending, c)|
    ensures Times(DroppedAt(s, c, i, keepAs), url) == Times(s, url)
  {
    var list := PendingFor(s.pending, c);
    TallyCut(list, i, ByUrl(url));
    HandOverTimes(s, list[i], keepAs, url);
    WithListTimes(HandedOver(s, list[i], keepAs), c, Cut(list, i), url);
  }

  lemma DropConserves(s: Queue, c: ChatId, id: ItemId, keepAs: Option<Uuid>, url: Url)
    ensures Times(Dropped(s, c, id, keepAs), url) == Times(s, url) && Dropped(s, c, id, keepAs).created == s.created
  {
    var i := IndexOf(PendingFor(s.pending, c), id);
    if i < |PendingFor(s.pending, c)| {
      DropAtConserves(s, c, i, keepAs, url);
    }
  }

  lemma HandOverTimes(s: Queue, item: Pending, keepAs: Option<Uuid>, url: Url)
    ensures Times(HandedOver(s, item, keepAs), url) == Times(s, url) + ByUrl(url)(item)
    ensures HandedOver(s, item, keepAs).pending == s.pending
  {
    if keepAs.Some? && item.previewUrl.Some? {
      ReleaseConserves(s, keepAs.value, url);
      PlaceConserves(Released(s, keepAs.value), keepAs.value, item.previewUrl.value, url);
    }
  }

  lemma MoveConserves(s: Queue, c: ChatId, url: Url)
    requires Conserved(s, url)
    ensures Conserved(MovedOut(s, c), url)
  {
    var moving := Kept(s.items, false);
    var list := PendingFor(s.pending, c);
    var moved := Moved(moving, s.created, s.generation);
    MovedUrls(moving, s.created, s.generation, url);
    TallyOfBoth(list, moved, ByUrl(url));
    ListUrls(s.pending, c, list + moved, url);
  }

  /** Runs and uploads hold no URL. */
  predicate SameHolders(s: Queue, t: Queue) {
    t.pending == s.pending && t.placeholders == s.placeholders && t.revoked == s.revoked && t.created == s.created
  }

  lemma DrainKeepsHolders(s: Queue, c: ChatId, run: RunId, generation: nat)
    ensures SameHolders(s, Drained(s, c, run, generation))
  {
  }

  lemma RunKeepsHolders(s: Queue, c: ChatId)
    ensures SameHolders(s, Running(s, c))
  {
  }

  lemma LandingConserves(s: Queue, u: Upload, outcome: Outcome, url: Url)
    ensures Times(Landed(s, u, outcome), url) == Times(s, url) && Landed(s, u, outcome).created == s.created
  {
    match outcome
    case Sent(uuid) =>
      DropConserves(s, u.chatId, u.itemId, uuid, url);
      assert Landed(s, u, outcome) in {s, Dropped(s, u.chatId, u.itemId, uuid)};
    case Failure =>
      PatchConserves(s, u.chatId, u.itemId, Changes(Some(false), None), url);
      assert Landed(s, u, outcome) in {s, PatchedAt(s, u.chatId, u.itemId, Changes(Some(false), None))};
  }

  lemma FinishConserves(s: Queue, run: RunId, outcome: Outcome, url: Url)
    requires Conserved(s, url) && run in s.uploads
    ensures Conserved(Finished(s, run, outcome), url)
  {
    var u, t := s.uploads[run], s.(uploads := s.uploads - {run});
    assert Conserved(t, url);
    LandingConserves(t, u, outcome, url);
    DrainKeepsHolders(Landed(t, u, outcome), u.chatId, run, u.runGeneration);
  }

  lemma ResetConserves(s: Queue, url: Url)
    ensures Times(ResetTo(s), url) == Times(s, url)
  {
  }

  lemma RetryConserves(s: Queue, c: ChatId, id: ItemId, url: Url)
    requires Conserved(s, url)
    ensures Conserved(Retried(s, c, id), url)
  {
    var t := PatchedAt(s, c, id, Changes(Some(true), Some(0)));
    PatchConserves(s, c, id, Changes(Some(true), Some(0)), url);
    RunKeepsHolders(t, c);
  }

  lemma NextConserves(s: Queue, e: Event, url: Url)
    requires Conserved(s, url) && Enabled(s, e)
    ensures Conserved(Next(s, e), url)
  {
    match e
    case SendAll(c) =>
      MoveConserves(s, c, url);
      RunKeepsHolders(MovedOut(s, c), c);
    case Retry(c, id) => RetryConserves(s, c, id, url);
    case RemovePending(c, id) => DropConserves(s, c, id, None, url);
    case Progress(run, percent) =>
      PatchConserves(s, s.uploads[run].chatId, s.uploads[run].itemId, Changes(None, Some(percent)), url);
    case Finish(run, outcome) => FinishConserves(s, run, outcome, url);
    case ReleasePlaceholder(uuid) => ReleaseConserves(s, uuid, url);
    case Reset => ResetConserves(s, url);
    case _ =>
  }

  lemma {:induction false} RunConserves(states: seq<Queue>, events: seq<Event>, i: nat, url: Url)
    requires IsRun(states, events) && i < |states|
    ensures Conserved(states[i], url)
  {
    if i > 0 {
      RunConserves(states, events, i - 1, url);
      NextConserves(states[i - 1], events[i - 1], url);
    }
  }

  lemma {:induction false} SumHolds<T(!new)>(m: map<nat, T>, urls: T -> multiset<Url>, url: Url)
    ensures url in Sum(m, urls) <==> exists k :: k in m && url in urls(m[k])
    decreases |m|
  {
    if m != map[] {
      var p := Pick(m);
      SumHolds(m - {p}, urls, url);
      if k :| k in m && url in urls(m[k]) && k != p {
        assert k in m - {p};
      }
    }
  }

  /** A pending item shows the URL. */
  ghost predicate InPending(s: Queue, url: Url) {
    exists c :: c in s.pending && exists i :: ShowsAt(s.pending[c], i, url)
  }

  ghost predicate InPlaceholder(s: Queue, url: Url) {
    exists uuid :: uuid in s.placeholders && s.placeholders[uuid] == url
  }

  lemma HeldWhere(s: Queue, url: Url)
    ensures url in Sum(s.pending, Urls) <==> InPending(s, url)
    ensures url in Sum(s.placeholders, One) <==> InPlaceholder(s, url)
  {
    SumHolds(s.pending, Urls, url);
    SumHolds(s.placeholders, One, url);
    forall c | c in s.pending
      ensures url in Urls(s.pending[c]) <==> exists i :: ShowsAt(s.pending[c], i, url)
    {
      ListHolds(s.pending[c], url);
    }
  }

  /**
   * In every reachable state each preview URL is in exactly one of: a pending item, a row's placeholder, the
   * revoked ones; it is there once, and nothing else is in any of them.
   */
  lemma PreviewsAreConserved(states: seq<Queue>, events: seq<Event>, i: nat, url: Url)
    requires IsRun(states, events) && i < |states|
    ensures var s := states[i];
            Sum(s.pending, Urls)[url] + Sum(s.placeholders, One)[url] + s.revoked[url] == if url < s.created then 1 else 0
    ensures var s := states[i];
            if url >= s.created then !InPending(s, url) && !InPlaceholder(s, url) && url !in s.revoked
            else if InPending(s, url) then !InPlaceholder(s, url) && url !in s.revoked
            else InPlaceholder(s, url) <==> url !in s.revoked
    ensures states[i].revoked[url] <= 1
  {
    RunConserves(states, events, i, url);
    HeldWhere(states[i], url);
  }
}
