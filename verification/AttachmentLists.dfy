/** Tallies over a chat's list of pending uploads: what appending, cutting and patching do to them. */
module AttachmentLists {
  import opened Options
  import opened Attachments

  /** The sum of `f` over the list. */
  function Tally(list: seq<Pending>, f: Pending -> nat): nat {
    if list == [] then 0 else Tally(list[..|list| - 1], f) + f(list[|list| - 1])
  }

  function ByUrl(url: Url): Pending -> nat { (p: Pending) => if p.previewUrl == Some(url) then 1 else 0 }

  function ById(id: ItemId): Pending -> nat { (p: Pending) => if p.id == id then 1 else 0 }

  function Uploading(): Pending -> nat { (p: Pending) => if p.uploading then 1 else 0 }

  function UploadingId(id: ItemId): Pending -> nat { (p: Pending) => if p.uploading && p.id == id then 1 else 0 }

  lemma TallySnoc(list: seq<Pending>, item: Pending, f: Pending -> nat)
    ensures Tally(list + [item], f) == Tally(list, f) + f(item)
  {
    assert (list + [item])[..|list|] == list;
  }

  lemma {:induction false} TallyOfBoth(a: seq<Pending>, b: seq<Pending>, f: Pending -> nat)
    ensures Tally(a + b, f) == Tally(a, f) + Tally(b, f)
    decreases |b|
  {
    if b == [] {
      assert a + b == a;
    } else {
      var init, last := b[..|b| - 1], b[|b| - 1];
      TallyOfBoth(a, init, f);
      TallySnoc(a + init, last, f);
      assert a + b == a + init + [last];
    }
  }

  lemma Halves(list: seq<Pending>, i: nat)
    requires i <= |list|
    ensures list == list[..i] + list[i..]
  {
  }

  lemma FrontAndRest(list: seq<Pending>, i: nat)
    requires i < |list|
    ensures list[i..] == [list[i]] + list[i + 1..]
  {
  }

  lemma TallyCut(list: seq<Pending>, i: nat, f: Pending -> nat)
    requires i < |list|
    ensures Tally(list, f) == Tally(Cut(list, i), f) + f(list[i])
  {
    Halves(list, i);
    FrontAndRest(list, i);
    TallyOfBoth(list[..i], list[i + 1..], f);
    TallyOfBoth(list[..i], list[i..], f);
    TallyOfBoth([list[i]], list[i + 1..], f);
    TallyOne(list[i], f);
  }

  lemma TallyOne(item: Pending, f: Pending -> nat)
    ensures Tally([item], f) == f(item)
  {
    TallySnoc([], item, f);
    assert [] + [item] == [item];
  }

  lemma CutIs(list: seq<Pending>, i: nat)
    requires i < |list|
    ensures |Cut(list, i)| == |list| - 1
    ensures forall j | 0 <= j < |list| - 1 :: Cut(list, i)[j] == if j < i then list[j] else list[j + 1]
  {
  }

  lemma TallyHolds(list: seq<Pending>, i: nat, f: Pending -> nat)
    requires i < |list|
    ensures Tally(list, f) >= f(list[i])
  {
    TallyCut(list, i, f);
  }

  lemma TallyHoldsBoth(list: seq<Pending>, i: nat, j: nat, f: Pending -> nat)
    requires i < j < |list|
    ensures Tally(list, f) >= f(list[i]) + f(list[j])
  {
    TallyCut(list, i, f);
    CutIs(list, i);
    TallyHolds(Cut(list, i), j - 1, f);
  }

  /** A patch changes items in place. */
  lemma {:induction false} PatchIs(list: seq<Pending>, id: ItemId, changes: Changes)
    ensures |Patched(list, id, changes)| == |list|
    ensures forall i | 0 <= i < |list| ::
              Patched(list, id, changes)[i] == if list[i].id == id then Change(list[i], changes) else list[i]
  {
    if list != [] {
      PatchIs(list[..|list| - 1], id, changes);
    }
  }

  lemma {:induction false} PatchKeepsTally(list: seq<Pending>, id: ItemId, changes: Changes, f: Pending -> nat)
    requires forall p: Pending :: f(Change(p, changes)) == f(p)
    ensures Tally(Patched(list, id, changes), f) == Tally(list, f)
  {
    if list != [] {
      var init, last := list[..|list| - 1], list[|list| - 1];
      PatchKeepsTally(init, id, changes, f);
      TallySnoc(Patched(init, id, changes), if last.id == id then Change(last, changes) else last, f);
    }
  }

  /** Failing an item takes what was uploading under its id. */
  lemma {:induction false} FailTally(list: seq<Pending>, id: ItemId)
    ensures Tally(Patched(list, id, Changes(Some(false), None)), Uploading()) + Tally(list, UploadingId(id))
            == Tally(list, Uploading())
  {
    if list != [] {
      var init, last := list[..|list| - 1], list[|list| - 1];
      var changes := Changes(Some(false), None);
      FailTally(init, id);
      TallySnoc(Patched(init, id, changes), if last.id == id then Change(last, changes) else last, Uploading());
    }
  }

  lemma {:induction false} UploadingIdBelow(list: seq<Pending>, id: ItemId)
    ensures Tally(list, UploadingId(id)) <= Tally(list, ById(id))
  {
    if list != [] {
      UploadingIdBelow(list[..|list| - 1], id);
    }
  }

  /** The files in the tray under an id. */
  function Staging(items: seq<Staged>, id: ItemId): nat {
    if items == [] then 0 else Staging(items[..|items| - 1], id) + if items[|items| - 1].id == id then 1 else 0
  }

  lemma StagingSnoc(items: seq<Staged>, item: Staged, id: ItemId)
    ensures Staging(items + [item], id) == Staging(items, id) + if item.id == id then 1 else 0
  {
    assert (items + [item])[..|items|] == items;
  }

  /** The tray splits into what moves and what stays. */
  lemma {:induction false} TraySplits(items: seq<Staged>, id: ItemId)
    ensures Staging(Kept(items, false), id) + Staging(Kept(items, true), id) == Staging(items, id)
  {
    if items != [] {
      var init, last := items[..|items| - 1], items[|items| - 1];
      TraySplits(init, id);
      if last.refused {
        StagingSnoc(Kept(init, true), last, id);
        assert Kept(items, false) == Kept(init, false);
      } else {
        StagingSnoc(Kept(init, false), last, id);
        assert Kept(items, true) == Kept(init, true);
      }
    }
  }

  lemma {:induction false} TrayShrinks(items: seq<Staged>, removed: ItemId, id: ItemId)
    ensures Staging(WithoutItem(items, removed), id) <= Staging(items, id)
  {
    if items != [] {
      var init, last := items[..|items| - 1], items[|items| - 1];
      TrayShrinks(init, removed, id);
      if last.id == removed {
        assert WithoutItem(items, removed) == WithoutItem(init, removed);
      } else {
        StagingSnoc(WithoutItem(init, removed), last, id);
      }
    }
  }

  lemma {:induction false} MovedUrls(moving: seq<Staged>, created: nat, generation: nat, url: Url)
    ensures Tally(Moved(moving, created, generation), ByUrl(url)) == if created <= url < created + Previews(moving) then 1 else 0
  {
    if moving != [] {
      var init, last := moving[..|moving| - 1], moving[|moving| - 1];
      MovedUrls(init, created, generation, url);
      var next := if last.previews then Some(created + Previews(init)) else None;
      TallySnoc(Moved(init, created, generation), Pending(last.id, next, true, 0, generation), ByUrl(url));
    }
  }

  lemma {:induction false} MovedIds(moving: seq<Staged>, created: nat, generation: nat, id: ItemId)
    ensures Tally(Moved(moving, created, generation), ById(id)) == Staging(moving, id)
  {
    if moving != [] {
      var init, last := moving[..|moving| - 1], moving[|moving| - 1];
      MovedIds(init, created, generation, id);
      var next := if last.previews then Some(created + Previews(init)) else None;
      TallySnoc(Moved(init, created, generation), Pending(last.id, next, true, 0, generation), ById(id));
    }
  }

  lemma {:induction false} MovedAre(moving: seq<Staged>, created: nat, generation: nat)
    ensures |Moved(moving, created, generation)| == |moving|
    ensures forall i | 0 <= i < |moving| ::
              Moved(moving, created, generation)[i].uploading && Moved(moving, created, generation)[i].generation == generation
  {
    if moving != [] {
      MovedAre(moving[..|moving| - 1], created, generation);
    }
  }

  lemma {:induction false} UrlsAreTallied(list: seq<Pending>, url: Url)
    ensures Urls(list)[url] == Tally(list, ByUrl(url))
  {
    if list != [] {
      UrlsAreTallied(list[..|list| - 1], url);
    }
  }

  predicate ShowsAt(list: seq<Pending>, i: int, url: Url) { 0 <= i < |list| && list[i].previewUrl == Some(url) }

  lemma {:induction false} TallyFinds(list: seq<Pending>, f: Pending -> nat) returns (i: nat)
    requires Tally(list, f) > 0
    ensures i < |list| && f(list[i]) > 0
  {
    var n := |list| - 1;
    if f(list[n]) > 0 {
      i := n;
    } else {
      i := TallyFinds(list[..n], f);
    }
  }

  lemma ListHolds(list: seq<Pending>, url: Url)
    ensures url in Urls(list) <==> exists i :: ShowsAt(list, i, url)
  {
    UrlsAreTallied(list, url);
    if Tally(list, ByUrl(url)) > 0 {
      var i := TallyFinds(list, ByUrl(url));
      assert ShowsAt(list, i, url);
    }
    if i :| ShowsAt(list, i, url) {
      TallyHolds(list, i, ByUrl(url));
    }
  }
}
