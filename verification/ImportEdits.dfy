/** What single actions of the import workbench do to items, pages and selection
    (`src/stores/importStore.ts`). */
module ImportEdits {
  import opened Common
  import opened ImportItems
  import opened ImportStore
  import opened ImportWindow
  import A = ImportAggregates

  // ---- scope -------------------------------------------------------------------------------

  /** The action names the project in view, or none is in view and none of its epochs is
      named; a named epoch is the current one. */
  predicate InScope(s: State, projectKey: string, epoch: Option<nat>) {
    && (s.projectKey == Some(projectKey) || (s.projectKey == None && epoch == None))
    && (epoch != None ==> epoch == Some(s.epoch))
  }

  /** Actions out of scope change nothing, and no other action is refused for its scope. */
  lemma OutOfScopeChangesNothing(s: State, projectKey: string, epoch: Option<nat>, session: Session, overview: Overview, page: Page, item: Item, items: seq<Item>)
    ensures Accepts(s, projectKey, epoch) <==> InScope(s, projectKey, epoch)
    ensures !InScope(s, projectKey, epoch) ==>
              && AttachSession(s, projectKey, session, epoch) == s && ReplaceSession(s, projectKey, session, epoch) == s
              && AttachWindow(s, projectKey, overview, page, epoch) == s && AppendPage(s, projectKey, page, epoch) == s
              && ReplaceItemLocal(s, projectKey, item, epoch) == s && PatchItems(s, projectKey, items, epoch) == s
  {
  }

  // ---- patches -----------------------------------------------------------------------------

  /** Where both items carry a revision, the second one's is larger. */
  predicate Newer(current: Item, next: Item) {
    match (current.revision, next.revision) case (Some(was), Some(comes)) => comes > was case _ => true
  }

  lemma {:induction false} PatchAllAt(s: State, items: seq<Item>, id: ItemId)
    requires Distinct(Ids(items))
    ensures var t := PatchAll(s, items);
            && (id in t.itemById <==> id in s.itemById)
            && (id in s.itemById ==>
                  t.itemById[id] == if id in ById(items) && Newer(s.itemById[id], ById(items)[id]) then ById(items)[id] else s.itemById[id])
    decreases |items|
  {
    if items != [] {
      A.LastIsNew(items);
      PatchAllAt(s, items[..|items| - 1], id);
      ByIdHas(items[..|items| - 1]);
    }
  }

  lemma {:induction false} UnchangedMeans(s: State, items: seq<Item>)
    requires !Changes(s, items)
    ensures PatchAll(s, items) == s
    decreases |items|
  {
    if items != [] { UnchangedMeans(s, items[..|items| - 1]); }
  }

  /** A patch of distinct items replaces each stored item that it lists at a newer
      revision, or where one of the two has none; the others stay, and none is added. */
  lemma {:induction false} PatchTakesNewer(s: State, projectKey: string, items: seq<Item>, epoch: Option<nat>, i: nat)
    requires InScope(s, projectKey, epoch) && s.session.Some? && Distinct(Ids(items)) && i < |items|
    ensures var t := PatchItems(s, projectKey, items, epoch);
            && t.itemById.Keys == s.itemById.Keys
            && (items[i].id in s.itemById ==>
                  t.itemById[items[i].id] == if Newer(s.itemById[items[i].id], items[i]) then items[i] else s.itemById[items[i].id])
            && forall id :: id in s.itemById && id !in Ids(items) ==> t.itemById[id] == s.itemById[id]
  {
    var t := PatchItems(s, projectKey, items, epoch);
    if !Changes(s, items) { UnchangedMeans(s, items); }
    assert t.itemById == PatchAll(s, items).itemById;
    ByIdHas(items);
    ByIdDistinct(items, i);
    PatchAllAt(s, items, items[i].id);
    forall id ensures id in t.itemById <==> id in s.itemById { PatchAllAt(s, items, id); }
    forall id | id in s.itemById && id !in Ids(items) ensures t.itemById[id] == s.itemById[id] { PatchAllAt(s, items, id); }
  }

  // ---- pages under patches ------------------------------------------------------------------

  lemma {:induction false} WithoutConcat(a: seq<ItemId>, b: seq<ItemId>, id: ItemId)
    ensures Without(a + b, id) == Without(a, id) + Without(b, id)
  {
    if a == [] {
      assert a + b == b;
    } else {
      assert (a + b)[1..] == a[1..] + b;
      WithoutConcat(a[1..], b, id);
    }
  }

  // A page that is not loaded does not show.
  lemma {:induction false} OtherPage(pages: Pages, loaded: seq<PageKey>, key: PageKey, ids: seq<ItemId>)
    requires key !in loaded
    ensures LoadedIds(pages[key := ids], loaded) == LoadedIds(pages, loaded)
    decreases |loaded|
  {
    if loaded != [] { OtherPage(pages, loaded[..|loaded| - 1], key, ids); }
  }

  lemma {:induction false} DistinctParts(a: seq<ItemId>, b: seq<ItemId>, id: ItemId)
    requires Distinct(a + b)
    ensures Distinct(b) && (id in a ==> id !in b)
  {
    var all := a + b;
    assert forall i :: 0 <= i < |b| ==> all[|a| + i] == b[i];
    if id in a {
      var i :| 0 <= i < |a| && a[i] == id;
      assert all[i] == id;
    }
  }

  // The id is on the first page, or the first page is not concerned.
  lemma {:induction false} RemovedFromFirst(pages: Pages, first: PageKey, rest: seq<PageKey>, id: ItemId)
    requires first !in rest && first in pages && id in pages[first] && id !in LoadedIds(pages, rest)
    ensures LoadedIds(pages[first := Without(pages[first], id)], [first] + rest) == Without(LoadedIds(pages, [first] + rest), id)
  {
    var after := pages[first := Without(pages[first], id)];
    LoadedCons(pages, first, rest);
    LoadedCons(after, first, rest);
    OtherPage(pages, rest, first, Without(pages[first], id));
    WithoutConcat(pages[first], LoadedIds(pages, rest), id);
  }

  lemma {:induction false} RemovedFromRest(pages: Pages, after: Pages, first: PageKey, rest: seq<PageKey>, id: ItemId)
    requires PageIds(after, first) == PageIds(pages, first) && id !in PageIds(pages, first)
    requires LoadedIds(after, rest) == Without(LoadedIds(pages, rest), id)
    ensures LoadedIds(after, [first] + rest) == Without(LoadedIds(pages, [first] + rest), id)
  {
    LoadedCons(pages, first, rest);
    LoadedCons(after, first, rest);
    WithoutConcat(PageIds(pages, first), LoadedIds(pages, rest), id);
  }

  /** The id leaves the view, and the rest of the view stays as it is. */
  lemma {:induction false} RemovedFromView(pages: Pages, loaded: seq<PageKey>, id: ItemId)
    requires Distinct(loaded) && Distinct(LoadedIds(pages, loaded))
    ensures LoadedIds(RemoveFromPages(pages, loaded, id), loaded) == Without(LoadedIds(pages, loaded), id)
    decreases |loaded|
  {
    if loaded != [] {
      var first, rest := loaded[0], loaded[1..];
      assert loaded == [first] + rest && first !in rest && Distinct(rest);
      LoadedCons(pages, first, rest);
      DistinctParts(PageIds(pages, first), LoadedIds(pages, rest), id);
      if id in PageIds(pages, first) {
        RemovedFromFirst(pages, first, rest, id);
      } else {
        RemovedFromView(pages, rest, id);
        RemoveKeepsOther(pages, rest, id, first);
        RemovedFromRest(pages, RemoveFromPages(pages, rest, id), first, rest, id);
      }
    }
  }

  lemma {:induction false} RemoveKeepsOther(pages: Pages, loaded: seq<PageKey>, id: ItemId, key: PageKey)
    requires key !in loaded
    ensures PageIds(RemoveFromPages(pages, loaded, id), key) == PageIds(pages, key)
    decreases |loaded|
  {
    if loaded != [] && !(loaded[0] in pages && id in pages[loaded[0]]) { RemoveKeepsOther(pages, loaded[1..], id, key); }
  }

  lemma {:induction false} PatchSingle(s: State, projectKey: string, item: Item, epoch: Option<nat>)
    requires InScope(s, projectKey, epoch) && s.session.Some? && item.id in s.itemById && Newer(s.itemById[item.id], item)
    ensures var t, u := PatchItems(s, projectKey, [item], epoch), PatchOne(s, item);
            && t.itemById == u.itemById && t.pages == u.pages && t.loaded == u.loaded && t.pageTotal == u.pageTotal
            && t.itemById == s.itemById[item.id := item]
  {
    assert [item][..0] == [];
    assert PatchAll(s, [item][..0]) == s;
    assert Changes(s, [item]);
  }

  /** An item that leaves the filter leaves the view, and the total falls by one; nothing
      else moves. */
  lemma {:induction false} LeavingItemIsRemoved(s: State, projectKey: string, item: Item, epoch: Option<nat>)
    requires InScope(s, projectKey, epoch) && s.session.Some? && item.id in s.itemById && Newer(s.itemById[item.id], item)
    requires Matches(s.itemById[item.id], s.filter) && !Matches(item, s.filter)
    requires Distinct(s.loaded) && Distinct(LoadedIds(s.pages, s.loaded))
    ensures var t := PatchItems(s, projectKey, [item], epoch);
            && LoadedIds(t.pages, t.loaded) == Without(LoadedIds(s.pages, s.loaded), item.id)
            && t.pageTotal == if s.pageTotal == 0 then 0 else s.pageTotal - 1
  {
    PatchSingle(s, projectKey, item, epoch);
    RemovedFromView(s.pages, s.loaded, item.id);
  }

  /** The last page gets the id in front and keeps at most 200. */
  predicate PutInFront(pages: Pages, after: Pages, last: PageKey, id: ItemId) {
    && last in after && 0 < |after[last]| <= 200 && after[last][0] == id
    && after[last][1..] <= Without(PageIds(pages, last), id)
    && (|PageIds(pages, last)| < 200 ==> after[last][1..] == Without(PageIds(pages, last), id))
  }

  lemma {:induction false} AddedToView(pages: Pages, loaded: seq<PageKey>, id: ItemId)
    requires loaded != []
    ensures PutInFront(pages, AddToPages(pages, loaded, id), loaded[|loaded| - 1], id)
    ensures forall key :: key != loaded[|loaded| - 1] ==> PageIds(AddToPages(pages, loaded, id), key) == PageIds(pages, key)
  {
    var last := loaded[|loaded| - 1];
    var rest := Without(PageIds(pages, last), id);
    assert ([id] + rest)[1..] == rest;
  }

  /** An item that enters the filter is put in front of the last page, which keeps at most
      200 ids; the total rises by one. */
  lemma {:induction false} EnteringItemIsAdded(s: State, projectKey: string, item: Item, epoch: Option<nat>)
    requires InScope(s, projectKey, epoch) && s.session.Some? && item.id in s.itemById && Newer(s.itemById[item.id], item)
    requires !Matches(s.itemById[item.id], s.filter) && Matches(item, s.filter) && s.loaded != []
    ensures var t, last := PatchItems(s, projectKey, [item], epoch), s.loaded[|s.loaded| - 1];
            && t.loaded == s.loaded && t.pageTotal == s.pageTotal + 1
            && PutInFront(s.pages, t.pages, last, item.id)
            && forall key :: key != last ==> PageIds(t.pages, key) == PageIds(s.pages, key)
  {
    PatchSingle(s, projectKey, item, epoch);
    AddedToView(s.pages, s.loaded, item.id);
  }

  /** An item that stays on its side of the filter moves no page. */
  lemma {:induction false} StayingItemMovesNothing(s: State, projectKey: string, item: Item, epoch: Option<nat>)
    requires InScope(s, projectKey, epoch) && s.session.Some? && item.id in s.itemById && Newer(s.itemById[item.id], item)
    requires Matches(s.itemById[item.id], s.filter) <==> Matches(item, s.filter)
    ensures var t := PatchItems(s, projectKey, [item], epoch);
            t.pages == s.pages && t.loaded == s.loaded && t.pageTotal == s.pageTotal
  {
    PatchSingle(s, projectKey, item, epoch);
  }

  /** A local replacement takes the item whatever its revision, in the store and in the
      listed items; pages and selection stay. */
  lemma ReplaceLocalMeans(s: State, projectKey: string, item: Item, epoch: Option<nat>, i: nat)
    requires InScope(s, projectKey, epoch) && s.session.Some? && item.id in s.itemById && i < |s.session.value.items|
    ensures var t := ReplaceItemLocal(s, projectKey, item, epoch);
            && t.itemById == s.itemById[item.id := item] && t.pages == s.pages && t.loaded == s.loaded
            && t.selected == s.selected && t.pageTotal == s.pageTotal
            && t.session.Some? && |t.session.value.items| == |s.session.value.items|
            && t.session.value.items[i] == if s.session.value.items[i].id == item.id then item else s.session.value.items[i]
  {
  }

  /** An edit that moves some counter shows the item count of the overview as the total, if
      there is one; an edit that moves none leaves all of them alone. */
  lemma EditTakesTotal(s: State, projectKey: string, item: Item, epoch: Option<nat>)
    requires InScope(s, projectKey, epoch) && s.session.Some? && item.id in s.itemById
    ensures var t, o := ReplaceItemLocal(s, projectKey, item, epoch), s.aggregate.overview;
            if Project(s.itemById[item.id]) == Project(item) then t.aggregate == s.aggregate
            else && t.aggregate.progress.total == (if o.Some? then o.value.itemCount else s.aggregate.progress.total)
                 && (t.aggregate.overview.Some? <==> o.Some?) && (o.Some? ==> t.aggregate.overview.value.itemCount == o.value.itemCount)
  {
  }

  // ---- whole sessions --------------------------------------------------------------------------

  lemma {:induction false} CompatPagesShow(ids: seq<ItemId>, filter: Filter, offset: nat)
    ensures LoadedIds(CompatPages(ids, filter, offset), CompatKeys(|ids|, filter, offset)) == ids
    ensures forall key :: key in CompatPages(ids, filter, offset) || key in CompatKeys(|ids|, filter, offset) ==> key.offset >= offset
    ensures forall key :: key in CompatPages(ids, filter, offset) ==> 0 < |CompatPages(ids, filter, offset)[key]| <= 200
    ensures |ids| <= 600 ==> |CompatKeys(|ids|, filter, offset)| <= (|ids| + 199) / 200
    decreases |ids|
  {
    var key := CompatPage(filter, offset);
    if ids != [] && |ids| <= 200 {
      LoadedCons(CompatPages(ids, filter, offset), key, []);
      assert [key] + [] == [key];
    } else if ids != [] {
      var rest := ids[200..];
      CompatPagesShow(rest, filter, offset + 200);
      var pages, keys := CompatPages(rest, filter, offset + 200), CompatKeys(|rest|, filter, offset + 200);
      OtherPage(pages, keys, key, ids[..200]);
      LoadedCons(pages[key := ids[..200]], key, keys);
      assert ids == ids[..200] + rest;
    }
  }

  lemma {:induction false} DedupHas(ids: seq<ItemId>, id: ItemId)
    ensures id in Dedup(ids) <==> id in ids
    ensures Distinct(Dedup(ids))
    decreases |ids|
  {
    if ids != [] {
      var n := |ids| - 1;
      DedupHas(ids[..n], id);
      DedupHas(ids[..n], ids[n]);
      if ids[n] !in Dedup(ids[..n]) { AppendDistinct(Dedup(ids[..n]), ids[n]); }
      assert ids == ids[..n] + [ids[n]];
    }
  }

  lemma {:induction false} KeepHas(ids: seq<ItemId>, some: set<ItemId>, id: ItemId)
    ensures id in Keep(ids, some) <==> id in ids && id in some
    ensures id in Drop(ids, some) <==> id in ids && id !in some
    decreases |ids|
  {
    if ids != [] {
      KeepHas(ids[..|ids| - 1], some, id);
      assert ids == ids[..|ids| - 1] + [ids[|ids| - 1]];
    }
  }

  lemma {:induction false} MatchingHas(items: seq<Item>, filter: Filter, id: ItemId)
    requires Distinct(Ids(items))
    ensures id in MatchingIds(items, filter) <==> id in ById(items) && Matches(ById(items)[id], filter)
    ensures Distinct(MatchingIds(items, filter))
    decreases |items|
  {
    if items != [] {
      var n := |items| - 1;
      A.LastIsNew(items);
      MatchingHas(items[..n], filter, id);
      MatchingHas(items[..n], filter, items[n].id);
      if Matches(items[n], filter) { AppendDistinct(MatchingIds(items[..n], filter), items[n].id); }
    }
  }

  lemma AttachedView(s: State, projectKey: string, session: Session, epoch: Option<nat>)
    requires InScope(s, projectKey, epoch)
    ensures var t := AttachSession(s, projectKey, session, epoch);
            LoadedIds(t.pages, t.loaded) == BoundedIds(s, session) && t.itemById == ById(session.items)
            && t.session == Some(Session(session.id, ItemsOf(t.itemById, LoadedIds(t.pages, t.loaded))))
  {
    var ids := BoundedIds(s, session);
    var first := if ids == [] then 0 else IndexOrZero(MatchingIds(session.items, s.filter), ids[0]);
    CompatPagesShow(ids, s.filter, first);
  }

  lemma {:induction false} IndexMeans(ids: seq<ItemId>, id: ItemId)
    ensures id in ids ==> IndexOrZero(ids, id) < |ids| && ids[IndexOrZero(ids, id)] == id && id !in ids[..IndexOrZero(ids, id)]
    ensures id !in ids ==> IndexOrZero(ids, id) == 0
    decreases |ids|
  {
    if id in ids && ids[0] != id {
      IndexMeans(ids[1..], id);
      var n := IndexOrZero(ids[1..], id);
      assert ids[..n + 1] == [ids[0]] + ids[1..][..n];
    }
  }

  /** The view starts at the position of its first id among the items that pass the filter. */
  lemma {:induction false} ViewStartsAt(s: State, projectKey: string, session: Session, epoch: Option<nat>)
    requires InScope(s, projectKey, epoch)
    ensures var t := AttachSession(s, projectKey, session, epoch);
            var shown, passing := LoadedIds(t.pages, t.loaded), MatchingIds(session.items, s.filter);
            if shown != [] && shown[0] in passing
            then t.start < |passing| && passing[t.start] == shown[0] && shown[0] !in passing[..t.start] else t.start == 0
  {
    AttachedView(s, projectKey, session, epoch);
    var ids := BoundedIds(s, session);
    if ids != [] { IndexMeans(MatchingIds(session.items, s.filter), ids[0]); }
  }

  /** The session lists the stored items of the ids in view. */
  ghost predicate ListsView(s: State) {
    s.session.Some? && s.session.value.items == ItemsOf(s.itemById, LoadedIds(s.pages, s.loaded))
  }

  /** Patches, pages and attached sessions keep the list in step with the view. */
  lemma PatchFollowsView(s: State, projectKey: string, items: seq<Item>, epoch: Option<nat>)
    requires ListsView(s)
    ensures ListsView(PatchItems(s, projectKey, items, epoch))
  {
  }

  lemma AppendFollowsView(s: State, projectKey: string, page: Page, epoch: Option<nat>)
    requires ListsView(s)
    ensures ListsView(AppendPage(s, projectKey, page, epoch))
  {
  }

  lemma AttachFollowsView(s: State, projectKey: string, session: Session, epoch: Option<nat>)
    requires InScope(s, projectKey, epoch)
    ensures ListsView(AttachSession(s, projectKey, session, epoch))
  {
    AttachedView(s, projectKey, session, epoch);
  }

  /** A selection survives a session that lists its item and is cleared otherwise; the
      overview survives within its session; the total is that of the unfinished items. */
  lemma AttachKeepsSelection(s: State, projectKey: string, session: Session, epoch: Option<nat>)
    requires InScope(s, projectKey, epoch)
    ensures var t := AttachSession(s, projectKey, session, epoch);
            && t.projectKey == Some(projectKey) && t.epoch == s.epoch && t.filter == s.filter
            && (forall id :: id in t.known <==> id in Ids(session.items))
            && (forall id :: id != "" && s.selected == Some(id) ==> t.selected == if id in Ids(session.items) then Some(id) else None)
            && t.aggregate.overview == (if s.session.Some? && s.session.value.id == session.id then s.aggregate.overview else None)
            && t.aggregate.progress.total == |session.items| && t.pageTotal == t.aggregate.counts.all
  {
    ByIdHas(session.items);
  }

  /** Replacing a session is attaching it, but for the overview. */
  lemma ReplaceIsAttach(s: State, projectKey: string, session: Session, epoch: Option<nat>)
    ensures var t, u := AttachSession(s, projectKey, session, epoch), ReplaceSession(s, projectKey, session, epoch);
            && u == t.(aggregate := u.aggregate) && u.aggregate == t.aggregate.(overview := u.aggregate.overview)
            && (InScope(s, projectKey, epoch) ==>
                  (u.aggregate.overview.Some? <==> s.aggregate.overview.Some? && s.aggregate.overview.value.sessionId == session.id))
  {
  }

  /** Another session than the one in view shows its items that pass the filter, in their
      order, up to 600 of them. */
  lemma {:induction false} OtherSessionIsShown(s: State, projectKey: string, session: Session, epoch: Option<nat>)
    requires InScope(s, projectKey, epoch) && Distinct(Ids(session.items))
    requires s.session.None? || s.session.value.id != session.id
    ensures var t := AttachSession(s, projectKey, session, epoch);
            var shown, passing := LoadedIds(t.pages, t.loaded), MatchingIds(session.items, s.filter);
            && shown == (if |passing| <= 600 then passing else passing[..600])
            && t.session == Some(Session(session.id, ItemsOf(t.itemById, shown))) && t.start == 0
  {
    AttachedView(s, projectKey, session, epoch);
    MatchingHas(session.items, s.filter, "");
    A.DedupKeeps(MatchingIds(session.items, s.filter));
  }

  /** The session in view keeps what it shows, as far as the items still exist, and adds
      items that pass the filter and were not known; of more than 600 the last ones stay. */
  lemma {:induction false} SameSessionKeepsView(s: State, projectKey: string, session: Session, epoch: Option<nat>, id: ItemId)
    requires InScope(s, projectKey, epoch) && Distinct(Ids(session.items))
    requires s.session.Some? && s.session.value.id == session.id
    ensures var t := AttachSession(s, projectKey, session, epoch);
            var shown := LoadedIds(t.pages, t.loaded);
            var stays := id in LoadedIds(s.pages, s.loaded) && id in ById(session.items);
            var joins := id in ById(session.items) && Matches(ById(session.items)[id], s.filter) && id !in s.known;
            && Distinct(shown) && |shown| <= 600
            && (id in shown ==> stays || joins)
            && (|shown| < 600 && (stays || joins) ==> id in shown)
  {
    AttachedView(s, projectKey, session, epoch);
    var before, passing := LoadedIds(s.pages, s.loaded), MatchingIds(session.items, s.filter);
    KeepHas(before, ById(session.items).Keys, id);
    KeepHas(passing, s.known, id);
    MatchingHas(session.items, s.filter, id);
    var preferred := Keep(before, ById(session.items).Keys) + Drop(passing, s.known);
    DedupHas(preferred, id);
  }

  // ---- the window ----------------------------------------------------------------------------------

  /** A page is let in if and only if it is in scope and names the session in view and
      the snapshot of its overview. */
  lemma PageFitsMeans(s: State, projectKey: string, page: Page, epoch: Option<nat>)
    ensures PageFits(s, projectKey, page, epoch) <==>
            && InScope(s, projectKey, epoch)
            && (match s.session case Some(session) => session.id == page.sessionId case None => false)
            && (match s.aggregate.overview case Some(o) => o.semanticRevision == page.snapshotRevision case None => false)
    ensures !PageFits(s, projectKey, page, epoch) ==> AppendPage(s, projectKey, page, epoch) == s
  {
  }

  /** Fewer than three pages: the page is added to the view. Three pages: the first one
      goes. An empty page is written over. */
  lemma {:induction false} AppendedPageIsShown(s: State, projectKey: string, page: Page, epoch: Option<nat>, fetched: seq<ItemId>)
    requires WindowOk(s, fetched) && PageFits(s, projectKey, page, epoch)
    requires forall key :: key in s.loaded ==> PageIds(s.pages, key) != []
    ensures var t := AppendPage(s, projectKey, page, epoch);
            if |s.loaded| < 3
            then && t.start == s.start && |t.loaded| == |s.loaded| + 1
                 && LoadedIds(t.pages, t.loaded) == LoadedIds(s.pages, s.loaded) + Ids(page.items)
            else && |t.loaded| == 3 && t.start == s.start + |PageIds(s.pages, s.loaded[0])|
                 && LoadedIds(t.pages, t.loaded) == LoadedIds(s.pages, s.loaded[1..]) + Ids(page.items)
  {
    var ids := Ids(page.items);
    var key := WindowPage(s.filter, s.start + |LoadedIds(s.pages, s.loaded)|);
    AppendedFrame(s, ids);
    NextKeyIsNew(s.pages, s.loaded, s.start, key);
    assert Appended(s, ids).loaded == s.loaded + [key];
    if |s.loaded| >= 3 { FirstPageGoes(s.pages, s.loaded, s.start, key, ids); }
  }

  lemma {:induction false} FirstPageGoes(pages: Pages, loaded: seq<PageKey>, start: nat, key: PageKey, ids: seq<ItemId>)
    requires |loaded| == 3 && key !in loaded
    requires FrameOk(Window(pages[key := ids], loaded + [key], start))
    requires LoadedIds(pages[key := ids], loaded + [key]) == LoadedIds(pages, loaded) + ids
    ensures var w := Evict(Window(pages[key := ids], loaded + [key], start));
            && |w.loaded| == 3 && w.start == start + |PageIds(pages, loaded[0])|
            && LoadedIds(w.pages, w.loaded) == LoadedIds(pages, loaded[1..]) + ids
  {
    var w := Window(pages[key := ids], loaded + [key], start);
    var first, rest := loaded[0], loaded[1..];
    assert loaded == [first] + rest && w.loaded[0] == first;
    LoadedCons(pages, first, rest);
    ShiftedIds(w);
    assert Evict(w) == Shifted(w);
    CancelFront(PageIds(pages, first), LoadedIds(pages, rest) + ids, Shown(Shifted(w)));
  }

  lemma {:induction false} NextKeyIsNew(pages: Pages, loaded: seq<PageKey>, start: nat, key: PageKey)
    requires Placed(pages, loaded, start) && key.offset >= start + |LoadedIds(pages, loaded)|
    requires forall k :: k in loaded ==> PageIds(pages, k) != []
    ensures key !in loaded
    decreases |loaded|
  {
    if loaded != [] {
      var init, last := loaded[..|loaded| - 1], loaded[|loaded| - 1];
      assert loaded == init + [last] && last in loaded;
      LoadedSnoc(pages, init, last);
      NextKeyIsNew(pages, init, start, key);
    }
  }

  lemma {:induction false} CancelFront(a: seq<ItemId>, b: seq<ItemId>, c: seq<ItemId>)
    requires a + b == a + c
    ensures b == c
  {
    assert b == (a + b)[|a|..] && c == (a + c)[|a|..];
  }

  lemma {:induction false} MergePageAt(base: map<ItemId, Item>, stored: map<ItemId, Item>, items: seq<Item>, i: nat)
    requires Distinct(Ids(items)) && i < |items|
    ensures var id, m := items[i].id, MergePage(base, stored, items);
            id in m && m[id] == if id in stored && !Newer(stored[id], items[i]) then stored[id] else items[i]
    decreases |items|
  {
    var n := |items| - 1;
    if i < n {
      assert Ids(items)[i] != Ids(items)[n] && Ids(items[..n]) == Ids(items)[..n];
      MergePageAt(base, stored, items[..n], i);
    }
  }

  /** Each item of an appended page is stored, unless the stored one is not older; the
      selected item stays stored and selected. */
  lemma {:induction false} AppendTakesNewer(s: State, projectKey: string, page: Page, epoch: Option<nat>, i: nat)
    requires PageFits(s, projectKey, page, epoch) && Distinct(Ids(page.items)) && i < |page.items|
    ensures var t, item := AppendPage(s, projectKey, page, epoch), page.items[i];
            && item.id in t.itemById && item.id in t.known
            && t.itemById[item.id] == (if item.id in s.itemById && !Newer(s.itemById[item.id], item) then s.itemById[item.id] else item)
            && (forall id :: id != "" && s.selected == Some(id) && id in s.itemById ==> id in t.itemById && t.selected == Some(id))
  {
    var w := Extended(s, Ids(page.items));
    MergePageAt(Retained(s.itemById, LoadedIds(w.pages, w.loaded)), s.itemById, page.items, i);
    assert Ids(page.items)[i] == page.items[i].id;
  }

  /** Some item of the list has the id and names the task. */
  predicate SomeNames(items: seq<Item>, task: string, id: ItemId) {
    exists i :: 0 <= i < |items| && items[i].id == id && items[i].taskId == Some(task)
  }

  lemma {:induction false} SomeNamesLast(items: seq<Item>, task: string, id: ItemId)
    requires items != []
    ensures var last := items[|items| - 1];
            SomeNames(items, task, id) <==> SomeNames(items[..|items| - 1], task, id) || (last.id == id && last.taskId == Some(task))
  {
    var init := items[..|items| - 1];
    if SomeNames(init, task, id) {
      var i :| 0 <= i < |init| && init[i].id == id && init[i].taskId == Some(task);
      assert items[i] == init[i];
    }
  }

  lemma {:induction false} AttachHas(ix: TaskIndex, item: Item, task: string, id: ItemId)
    ensures id in Entries(Attach(ix, item.id, item.taskId), task) <==>
            id in Entries(ix, task) || (task != "" && item.id == id && item.taskId == Some(task))
  {
    if item.taskId == Some(task) && task != "" { DedupHas(Entries(ix, task) + [item.id], id); }
  }

  /** A page changes no counter but the total of the page, and clears a selection that is
      neither known nor stored. */
  lemma AppendKeepsCounters(s: State, projectKey: string, page: Page, epoch: Option<nat>, id: ItemId)
    requires PageFits(s, projectKey, page, epoch)
    ensures var t := AppendPage(s, projectKey, page, epoch);
            && t.aggregate == s.aggregate && t.pageTotal == page.total && t.filter == s.filter && t.projectKey == s.projectKey
            && (id in t.known <==> id in s.known || id in Ids(page.items))
            && (t.selected == s.selected || t.selected == None)
            && (s.selected == Some(id) && id != "" ==> (t.selected == Some(id) <==> id in t.known || id in t.itemById))
  {
  }

  /** A patch keeps a selection that is known or stored. */
  lemma {:induction false} PatchKeepsSelection(s: State, projectKey: string, items: seq<Item>, epoch: Option<nat>, id: ItemId)
    requires s.selected == Some(id) && id != "" && (id in s.known || id in s.itemById)
    ensures PatchItems(s, projectKey, items, epoch).selected == Some(id)
  {
    PatchAllKeeps(s, items, id);
  }

  lemma {:induction false} PatchAllKeeps(s: State, items: seq<Item>, id: ItemId)
    ensures var t := PatchAll(s, items); t.selected == s.selected && t.known == s.known && (id in s.itemById ==> id in t.itemById)
    decreases |items|
  {
    if items != [] { PatchAllKeeps(s, items[..|items| - 1], id); }
  }

  lemma {:induction false} AttachAllHas(ix: TaskIndex, items: seq<Item>, task: string, id: ItemId)
    ensures id in Entries(AttachAll(ix, items), task) <==> id in Entries(ix, task) || (task != "" && SomeNames(items, task, id))
    decreases |items|
  {
    if items != [] {
      var n := |items| - 1;
      AttachAllHas(ix, items[..n], task, id);
      AttachHas(AttachAll(ix, items[..n]), items[n], task, id);
      SomeNamesLast(items, task, id);
    }
  }

  /** A page adds its items to the index by task; no entry is lost. */
  lemma AppendIndexesTasks(s: State, projectKey: string, page: Page, epoch: Option<nat>, task: string, id: ItemId)
    requires PageFits(s, projectKey, page, epoch)
    ensures id in Entries(AppendPage(s, projectKey, page, epoch).byTask, task) <==>
            id in Entries(s.byTask, task) || (task != "" && SomeNames(page.items, task, id))
  {
    AttachAllHas(s.byTask, page.items, task, id);
  }

  /** The first page of a session: the counters are those of its overview, and the
      selection survives within the session, with its item. */
  lemma AttachWindowMeans(s: State, projectKey: string, overview: Overview, page: Page, epoch: Option<nat>)
    requires InScope(s, projectKey, epoch)
    requires overview.sessionId == page.sessionId && overview.semanticRevision == page.snapshotRevision
    ensures var t, c := AttachWindow(s, projectKey, overview, page, epoch), overview.counts;
            && t.projectKey == Some(projectKey) && t.aggregate.overview == Some(overview) && t.pageTotal == page.total
            && t.aggregate.counts == Queue(c.all, c.active, c.ready, c.needsAction, c.failed, c.completed, c.waiting)
            && t.aggregate.progress.total == overview.itemCount && t.aggregate.progress.processed == c.processed
            && t.aggregate.progress.cancelled == c.cancelled && t.aggregate.progress.completed == c.completed
            && (s.session.None? || s.session.value.id != overview.sessionId ==> t.selected == None)
            && (s.session.Some? && s.session.value.id == overview.sessionId ==>
                  forall id :: id != "" && s.selected == Some(id) && id in s.itemById ==> t.selected == Some(id) && id in t.itemById)
  {
    ByIdHas(page.items);
  }

  /** A session or page of another overview is refused. */
  lemma MismatchedWindowIsRefused(s: State, projectKey: string, overview: Overview, page: Page, epoch: Option<nat>)
    requires overview.sessionId != page.sessionId || overview.semanticRevision != page.snapshotRevision
    ensures AttachWindow(s, projectKey, overview, page, epoch) == s
  {
  }
}
