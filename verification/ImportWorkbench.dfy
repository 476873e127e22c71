/** The actions of the import store (`src/stores/importStore.ts`): each computes on
    local copies, in loops, and then replaces the store's state. */
module ImportWorkbench {
  import opened Common
  import opened ImportItems
  import S = ImportStore
  import A = ImportAggregates

  /** `projectionsFor(Object.values(itemById))`, whatever the order of the values. */
  lemma {:induction false} ValuesTotal(values: seq<Item>)
    requires Distinct(Ids(values))
    ensures SumItems(values) == S.TotalOf(ById(values))
  {
    DistinctTotals(values);
    var p, q := SumItems(values), S.TotalOf(ById(values));
    forall f: Field ensures Read(p, f) == Read(q, f) { A.TotalReads(ById(values), f); }
    SameReads(p, q);
  }

  lemma SameReads(p: Projection, q: Projection)
    requires forall f: Field :: Read(p, f) == Read(q, f)
    ensures p == q
  {
    assert Read(p, FAll) == Read(q, FAll) && Read(p, FActive) == Read(q, FActive) && Read(p, FReady) == Read(q, FReady);
    assert Read(p, FNeedsAction) == Read(q, FNeedsAction) && Read(p, FFailed) == Read(q, FFailed);
    assert Read(p, FCompleted) == Read(q, FCompleted) && Read(p, FWaiting) == Read(q, FWaiting);
    assert Read(p, FProcessed) == Read(q, FProcessed) && Read(p, FCancelled) == Read(q, FCancelled);
    assert Read(p, FSelected) == Read(q, FSelected) && Read(p, FNewSources) == Read(q, FNewSources);
    assert Read(p, FUpdates) == Read(q, FUpdates) && Read(p, FWarnings) == Read(q, FWarnings);
    assert Read(p, FPending) == Read(q, FPending) && Read(p, FRestricted) == Read(q, FRestricted);
  }

  /** The overview with its counters taken from a list of items. */
  function Recounted(o: S.Overview, size: nat, total: Projection): S.Overview {
    o.(itemCount := size, counts := total.counts, selection := total.selection)
  }

  lemma {:induction false} RecountedIsRecomputed(s: S.State, session: S.Session, values: seq<Item>)
    requires Distinct(Ids(values)) && ById(values) == ById(session.items) && |values| == |ById(session.items)|
    ensures S.RecomputedOverview(s, session) ==
            if s.aggregate.overview.Some? && s.aggregate.overview.value.sessionId == session.id
            then Some(Recounted(s.aggregate.overview.value, |values|, SumItems(values))) else None
  {
    ValuesTotal(values);
  }

  method RemoveFromLoaded(pages: map<S.PageKey, seq<ItemId>>, loaded: seq<S.PageKey>, id: ItemId)
    returns (result: map<S.PageKey, seq<ItemId>>)
    ensures result == S.RemoveFromPages(pages, loaded, id)
  {
    result := pages;
    var i := 0;
    while i < |loaded|
      invariant 0 <= i <= |loaded| && result == pages
      invariant S.RemoveFromPages(pages, loaded, id) == S.RemoveFromPages(pages, loaded[i..], id)
    {
      if loaded[i] in pages && id in pages[loaded[i]] {
        return pages[loaded[i] := Without(pages[loaded[i]], id)];
      }
      assert loaded[i..][1..] == loaded[i + 1..];
      i := i + 1;
    }
  }

  method EvictPages(w: S.Window) returns (result: S.Window)
    ensures result == S.Evict(w)
  {
    result := w;
    while |result.loaded| > S.PAGE_WINDOW
      invariant S.Evict(result) == S.Evict(w)
      decreases |result.loaded|
    {
      var evicted := result.loaded[0];
      var size := if evicted in result.pages then |result.pages[evicted]| else 0;
      result := S.Window(result.pages - {evicted}, result.loaded[1..], result.start + size);
    }
  }

  method MergePageItems(base: map<ItemId, Item>, stored: map<ItemId, Item>, items: seq<Item>) returns (m: map<ItemId, Item>)
    ensures m == S.MergePage(base, stored, items)
  {
    m := base;
    for i := 0 to |items|
      invariant m == S.MergePage(base, stored, items[..i])
    {
      assert items[..i + 1][..i] == items[..i];
      var item := items[i];
      if item.id in stored && !S.AcceptsRevision(stored[item.id], item) {
        m := m[item.id := stored[item.id]];
      } else {
        m := m[item.id := item];
      }
    }
    assert items[..|items|] == items;
  }

  method IndexPageItems(ix: S.TaskIndex, items: seq<Item>) returns (result: S.TaskIndex)
    ensures result == S.AttachAll(ix, items)
  {
    result := ix;
    for i := 0 to |items|
      invariant result == S.AttachAll(ix, items[..i])
    {
      assert items[..i + 1][..i] == items[..i];
      result := S.Attach(result, items[i].id, items[i].taskId);
    }
    assert items[..|items|] == items;
  }

  class ImportWorkbenchStore {
    var state: S.State

    constructor ()
      ensures state == S.EMPTY
    {
      state := S.EMPTY;
    }

    /** `patchItems`. */
    method PatchItems(projectKey: string, items: seq<Item>, epoch: Option<nat>) returns (accepted: bool)
      modifies this
      ensures state == S.PatchItems(old(state), projectKey, items, epoch)
      ensures accepted == (&& S.Accepts(old(state), projectKey, epoch) && old(state).session.Some?
                           && (items == [] || S.Changes(old(state), items)))
      ensures A.Agrees(old(state)) ==> A.Agrees(state)
    {
      if A.Agrees(state) { A.ApplyKeepsAgreement(state, A.Patch(projectKey, items, epoch)); }
      if !S.Accepts(state, projectKey, epoch) || state.session.None? { return false; }
      if items == [] { return true; }
      var work, changed := state, false;
      for i := 0 to |items|
        invariant work == S.PatchAll(state, items[..i]) && changed == S.Changes(state, items[..i]) && state == old(state)
      {
        assert items[..i + 1][..i] == items[..i];
        var item := items[i];
        if S.Takes(work, item) {
          work := PatchItem(work, item);
          changed := true;
        }
      }
      assert items[..|items|] == items;
      if !changed { return false; }
      var shown := S.ItemsOf(work.itemById, S.LoadedIds(work.pages, work.loaded));
      state := work.(session := Some(state.session.value.(items := shown)),
                     selected := S.StillSelected(work.known, work.itemById, work.selected));
      return true;
    }

    /** The body of the loop, for an item that is taken over. */
    method PatchItem(work: S.State, item: Item) returns (next: S.State)
      requires S.Takes(work, item)
      ensures next == S.PatchOne(work, item)
    {
      var current := work.itemById[item.id];
      next := work.(itemById := work.itemById[item.id := item]);
      var matchedBefore, matchesNow := Matches(current, work.filter), Matches(item, work.filter);
      if matchedBefore != matchesNow {
        var pages;
        if matchedBefore {
          pages := RemoveFromLoaded(work.pages, work.loaded, item.id);
        } else {
          pages := S.AddToPages(work.pages, work.loaded, item.id);
        }
        next := next.(pages := pages, pageTotal := S.Shift(work.pageTotal, One(matchedBefore), One(matchesNow)));
      }
      if current.taskId != item.taskId {
        next := next.(byTask := S.Attach(S.Detach(work.byTask, item.id, current.taskId), item.id, item.taskId));
      }
      next := next.(aggregate := S.ApplyDelta(work.aggregate, Project(current), Project(item)));
    }

    /** `replaceItemLocal`. */
    method ReplaceItemLocal(projectKey: string, item: Item, epoch: Option<nat>) returns (accepted: bool)
      modifies this
      ensures state == S.ReplaceItemLocal(old(state), projectKey, item, epoch)
      ensures accepted == (S.Accepts(old(state), projectKey, epoch) && old(state).session.Some? && item.id in old(state).itemById)
      ensures A.Agrees(old(state)) ==> A.Agrees(state)
    {
      if A.Agrees(state) { A.ApplyKeepsAgreement(state, A.ReplaceLocal(projectKey, item, epoch)); }
      if !S.Accepts(state, projectKey, epoch) || state.session.None? || item.id !in state.itemById { return false; }
      var current, session := state.itemById[item.id], state.session.value;
      var byTask := state.byTask;
      if current.taskId != item.taskId {
        byTask := S.Attach(S.Detach(byTask, item.id, current.taskId), item.id, item.taskId);
      }
      state := state.(itemById := state.itemById[item.id := item], byTask := byTask,
                      session := Some(session.(items := S.Substitute(session.items, item))),
                      aggregate := S.ApplyDelta(state.aggregate, Project(current), Project(item)));
      return true;
    }

    /** `appendItemPage`. */
    method AppendItemPage(projectKey: string, page: S.Page, epoch: Option<nat>) returns (accepted: bool)
      modifies this
      ensures state == S.AppendPage(old(state), projectKey, page, epoch)
      ensures accepted == S.PageFits(old(state), projectKey, page, epoch)
    {
      if !S.PageFits(state, projectKey, page, epoch) { return false; }
      var w := EvictPages(S.Appended(state, Ids(page.items)));
      var ids := S.LoadedIds(w.pages, w.loaded);
      var itemById := MergePageItems(S.Retained(state.itemById, ids), state.itemById, page.items);
      itemById := S.KeepSelected(itemById, state.itemById, state.selected);
      var known := state.known + Elements(Ids(page.items));
      var byTask := IndexPageItems(state.byTask, page.items);
      state := state.(session := Some(state.session.value.(items := S.ItemsOf(itemById, ids))), itemById := itemById,
                      pages := w.pages, loaded := w.loaded, start := w.start, known := known, byTask := byTask,
                      pageTotal := page.total, selected := S.StillSelected(known, itemById, state.selected));
      return true;
    }

    /** `replaceSession`, given the stored items in the order the runtime lists them. */
    method ReplaceSession(projectKey: string, session: S.Session, epoch: Option<nat>, values: seq<Item>) returns (accepted: bool)
      requires Distinct(Ids(values)) && ById(values) == ById(session.items) && |values| == |ById(session.items)|
      modifies this
      ensures state == S.ReplaceSession(old(state), projectKey, session, epoch)
      ensures accepted == S.Accepts(old(state), projectKey, epoch)
      ensures accepted && Distinct(Ids(session.items)) ==> A.AgreesFully(state)
    {
      if !S.Accepts(state, projectKey, epoch) { return false; }
      if Distinct(Ids(session.items)) { A.ReplaceAgreesFully(state, projectKey, session, epoch); }
      var total := ProjectionsFor(values);
      RecountedIsRecomputed(state, session, values);
      var overview := None;
      if state.aggregate.overview.Some? && state.aggregate.overview.value.sessionId == session.id {
        overview := Some(Recounted(state.aggregate.overview.value, |values|, total));
      }
      assert overview == S.RecomputedOverview(state, session);
      state := S.Normalize(state, projectKey, session, overview);
      return true;
    }
  }
}
