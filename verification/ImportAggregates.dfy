/** Incremental counters and the inverse task index of the import workbench equal
    full recomputation (`src/stores/importStore.ts`). */
module ImportAggregates {
  import opened Common
  import opened ImportItems
  import opened ImportStore

  // ---- counters -------------------------------------------------------------------------

  /** The nine counters as shown: queue counts, and progress for the last two. */
  function Shown(g: Aggregate): Projection {
    var q := g.counts;
    Projection(Counts(q.all, q.active, q.ready, q.needsAction, q.failed, q.completed, q.waiting,
                      g.progress.processed, g.progress.cancelled), NO_SELECTION)
  }

  /** Progress repeats four of the queue counts. */
  predicate Mirrors(g: Aggregate) {
    && g.progress.completed == g.counts.completed && g.progress.active == g.counts.active
    && g.progress.failed == g.counts.failed && g.progress.needsAction == g.counts.needsAction
  }

  ghost predicate CountsAgree(g: Aggregate, m: map<ItemId, Item>) {
    CountTotals(Shown(g), m) && Mirrors(g)
  }

  /** A present overview agrees in every counter, the selection summary included. */
  ghost predicate OverviewAgrees(g: Aggregate, m: map<ItemId, Item>) {
    g.overview.Some? ==> Totals(Projection(g.overview.value.counts, g.overview.value.selection), m)
  }

  predicate SizeAgrees(g: Aggregate, m: map<ItemId, Item>) {
    g.progress.total == |m| && (g.overview.Some? ==> g.overview.value.itemCount == |m|)
  }

  lemma DeltaShown(g: Aggregate, before: Projection, after: Projection, f: Field)
    requires IsCount(f)
    ensures Read(Shown(ApplyDelta(g, before, after)), f) == Shift(Read(Shown(g), f), Read(before, f), Read(after, f))
  {
  }

  lemma DeltaOverview(g: Aggregate, before: Projection, after: Projection, f: Field)
    requires g.overview.Some?
    ensures ApplyDelta(g, before, after).overview.Some?
    ensures var o, o' := g.overview.value, ApplyDelta(g, before, after).overview.value;
            && o'.itemCount == o.itemCount
            && (before == after ==> o' == o)
            && (before != after && IsCount(f) ==>
                  Read(Projection(o'.counts, o'.selection), f) == Read(Shown(ApplyDelta(g, before, after)), f))
            && (!IsCount(f) ==>
                  Read(Projection(o'.counts, o'.selection), f)
                  == Shift(Read(Projection(o.counts, o.selection), f), Read(before, f), Read(after, f)))
  {
  }

  /** On an agreeing counter the difference is exact: the clamp at zero never acts. */
  lemma ClampNeverActs(m: map<ItemId, Item>, id: ItemId, item: Item, f: Field)
    requires id in m
    ensures SumOver(m, Measure(f)) >= Read(Project(m[id]), f)
    ensures Shift(SumOver(m, Measure(f)), Read(Project(m[id]), f), Read(Project(item), f)) == SumOver(m[id := item], Measure(f))
  {
    SumOverRemove(m, id, Measure(f));
    SumOverReplace(m, id, item, Measure(f));
    assert Measure(f)(m[id]) == Read(Project(m[id]), f) && Measure(f)(item) == Read(Project(item), f);
  }

  lemma EqualProjectionsKeepSums(m: map<ItemId, Item>, id: ItemId, item: Item, f: Field)
    requires id in m && Project(m[id]) == Project(item)
    ensures SumOver(m[id := item], Measure(f)) == SumOver(m, Measure(f))
  {
    SumOverReplace(m, id, item, Measure(f));
    assert Measure(f)(m[id]) == Measure(f)(item);
  }

  lemma DeltaKeepsCounts(g: Aggregate, m: map<ItemId, Item>, id: ItemId, item: Item)
    requires id in m && CountsAgree(g, m)
    ensures CountsAgree(ApplyDelta(g, Project(m[id]), Project(item)), m[id := item])
  {
    var g' := ApplyDelta(g, Project(m[id]), Project(item));
    forall f: Field | IsCount(f) ensures Read(Shown(g'), f) == SumOver(m[id := item], Measure(f)) {
      DeltaShown(g, Project(m[id]), Project(item), f);
      ClampNeverActs(m, id, item, f);
    }
  }

  lemma DeltaKeepsOverview(g: Aggregate, m: map<ItemId, Item>, id: ItemId, item: Item)
    requires id in m && CountsAgree(g, m) && OverviewAgrees(g, m)
    ensures OverviewAgrees(ApplyDelta(g, Project(m[id]), Project(item)), m[id := item])
  {
    if g.overview.Some? {
      DeltaKeepsCounts(g, m, id, item);
      var g' := ApplyDelta(g, Project(m[id]), Project(item));
      forall f: Field
        ensures g'.overview.Some?
        ensures Read(Projection(g'.overview.value.counts, g'.overview.value.selection), f) == SumOver(m[id := item], Measure(f))
      {
        DeltaOverview(g, Project(m[id]), Project(item), f);
        ClampNeverActs(m, id, item, f);
        if Project(m[id]) == Project(item) { EqualProjectionsKeepSums(m, id, item, f); }
      }
    }
  }

  // ---- the index --------------------------------------------------------------------------------

  /** The index is the exact inverse of `taskId`: a task is listed if and only if some
      item names it, with exactly those items, each once. */
  ghost predicate IndexExact(ix: TaskIndex, m: map<ItemId, Item>) {
    && (forall t :: t in ix ==> ix[t] != [] && Distinct(ix[t]))
    && (forall t, id :: id in Entries(ix, t) <==> Names(m, id, t))
  }

  predicate Names(m: map<ItemId, Item>, id: ItemId, t: string) {
    id in m && t != "" && m[id].taskId == Some(t)
  }

  lemma {:induction false} DedupKeeps(s: seq<ItemId>)
    requires Distinct(s)
    ensures Dedup(s) == s
  {
    if s != [] {
      var n := |s| - 1;
      DedupKeeps(s[..n]);
      assert s == s[..n] + [s[n]];
    }
  }

  lemma DetachKeepsExact(ix: TaskIndex, m: map<ItemId, Item>, id: ItemId)
    requires IndexExact(ix, m) && id in m
    ensures IndexExact(Detach(ix, id, m[id].taskId), m - {id})
  {
    var from := m[id].taskId;
    if Named(from) { WithoutDistinct(Entries(ix, from.value), id); }
    forall t, i ensures i in Entries(Detach(ix, id, from), t) <==> Names(m - {id}, i, t) {
      assert i in Entries(ix, t) <==> Names(m, i, t);
    }
  }

  lemma IndexInsert(ix: TaskIndex, m: map<ItemId, Item>, item: Item)
    requires IndexExact(ix, m) && item.id !in m
    ensures IndexExact(if Named(item.taskId) then ix[item.taskId.value := Entries(ix, item.taskId.value) + [item.id]] else ix,
                       m[item.id := item])
  {
    var m' := m[item.id := item];
    var ix' := if Named(item.taskId) then ix[item.taskId.value := Entries(ix, item.taskId.value) + [item.id]] else ix;
    if Named(item.taskId) {
      assert item.id in Entries(ix, item.taskId.value) <==> Names(m, item.id, item.taskId.value);
      AppendDistinct(Entries(ix, item.taskId.value), item.id);
    }
    forall t, i ensures i in Entries(ix', t) <==> Names(m', i, t) {
      assert i in Entries(ix, t) <==> Names(m, i, t);
    }
  }

  lemma ReindexKeepsExact(ix: TaskIndex, m: map<ItemId, Item>, id: ItemId, item: Item)
    requires IndexExact(ix, m) && id in m && item.id == id
    ensures IndexExact(Reindex(ix, id, m[id].taskId, item.taskId), m[id := item])
  {
    if m[id].taskId == item.taskId {
      assert forall t, i :: Names(m[id := item], i, t) <==> Names(m, i, t);
    } else {
      DetachKeepsExact(ix, m, id);
      var out := Detach(ix, id, m[id].taskId);
      IndexInsert(out, m - {id}, item);
      assert (m - {id})[id := item] == m[id := item];
      if Named(item.taskId) {
        assert !Names(m - {id}, id, item.taskId.value);
        AppendDistinct(Entries(out, item.taskId.value), id);
        DedupKeeps(Entries(out, item.taskId.value) + [id]);
      }
    }
  }

  lemma {:induction false} IndexTasksExact(items: seq<Item>)
    requires Distinct(Ids(items))
    ensures IndexExact(IndexTasks(items), ById(items))
    decreases |items|
  {
    if items != [] {
      var n := |items| - 1;
      LastIsNew(items);
      IndexTasksExact(items[..n]);
      IndexInsert(IndexTasks(items[..n]), ById(items[..n]), items[n]);
    }
  }

  // ---- sessions and edits ----------------------------------------------------------------------------

  ghost predicate Agrees(s: State) {
    CountsAgree(s.aggregate, s.itemById) && IndexExact(s.byTask, s.itemById)
  }

  /** Agreement including the overview and the number of items. */
  ghost predicate AgreesFully(s: State) {
    Agrees(s) && OverviewAgrees(s.aggregate, s.itemById) && SizeAgrees(s.aggregate, s.itemById)
  }

  lemma InsertSize(m: map<ItemId, Item>, id: ItemId, item: Item)
    requires id !in m
    ensures |m[id := item]| == |m| + 1
  {
    assert m[id := item].Keys == m.Keys + {id};
  }

  // Without repetition the last id is new.
  lemma {:induction false} LastIsNew(items: seq<Item>)
    requires Distinct(Ids(items)) && items != []
    ensures Distinct(Ids(items[..|items| - 1])) && items[|items| - 1].id !in ById(items[..|items| - 1])
  {
    var n, ids := |items| - 1, Ids(items);
    assert Ids(items[..n]) == ids[..n] && forall i :: 0 <= i < n ==> ids[i] != ids[n];
    ByIdHas(items[..n]);
  }

  lemma {:induction false} ByIdSize(items: seq<Item>)
    requires Distinct(Ids(items))
    ensures |ById(items)| == |items|
    decreases |items|
  {
    if items != [] {
      LastIsNew(items);
      ByIdSize(items[..|items| - 1]);
      InsertSize(ById(items[..|items| - 1]), items[|items| - 1].id, items[|items| - 1]);
    }
  }

  lemma FromCountsShows(p: Projection, total: nat, overview: Option<Overview>, f: Field)
    requires IsCount(f)
    ensures Read(Shown(FromCounts(p.counts, total, overview)), f) == Read(p, f)
    ensures Mirrors(FromCounts(p.counts, total, overview))
  {
  }

  lemma {:induction false} NormalizedCounts(items: seq<Item>, total: nat, overview: Option<Overview>)
    ensures CountsAgree(FromCounts(SumItems(items).counts, total, overview), ById(items)) <==> Distinct(Ids(items))
  {
    var g := FromCounts(SumItems(items).counts, total, overview);
    forall f: Field | IsCount(f) ensures Read(Shown(g), f) == Read(SumItems(items), f) {
      FromCountsShows(SumItems(items), total, overview, f);
    }
    FromCountsShows(SumItems(items), total, overview, FAll);
    TotalsAgreeIffDistinct(items);
  }

  /** An accepted session leaves agreeing counters exactly if its item ids are
      distinct; then the index agrees too. */
  lemma AttachAgreesIffDistinct(s: State, projectKey: string, session: Session, epoch: Option<nat>)
    requires Accepts(s, projectKey, epoch)
    ensures CountsAgree(AttachSession(s, projectKey, session, epoch).aggregate, ById(session.items)) <==> Distinct(Ids(session.items))
    ensures Distinct(Ids(session.items)) ==> Agrees(AttachSession(s, projectKey, session, epoch))
    ensures AttachSession(s, projectKey, session, epoch).itemById == ById(session.items)
  {
    var overview := if SameSession(s, session.id) then s.aggregate.overview else None;
    NormalizedCounts(session.items, |session.items|, overview);
    if Distinct(Ids(session.items)) { IndexTasksExact(session.items); }
  }

  /** After `replaceSession` with distinct ids everything agrees, the selection summary
      of a present overview included. */
  lemma ReplaceAgreesFully(s: State, projectKey: string, session: Session, epoch: Option<nat>)
    requires Accepts(s, projectKey, epoch) && Distinct(Ids(session.items))
    ensures AgreesFully(ReplaceSession(s, projectKey, session, epoch))
  {
    NormalizedCounts(session.items, |session.items|, RecomputedOverview(s, session));
    IndexTasksExact(session.items);
    ByIdSize(session.items);
    var m := ById(session.items);
    forall f: Field ensures Read(TotalOf(m), f) == SumOver(m, Measure(f)) { TotalReads(m, f); }
  }

  lemma TotalReads(m: map<ItemId, Item>, f: Field)
    ensures Read(TotalOf(m), f) == SumOver(m, Measure(f))
  {
    match f
    case FAll => case FActive => case FReady => case FNeedsAction => case FFailed => case FCompleted => case FWaiting =>
    case FProcessed => case FCancelled => case FSelected => case FNewSources => case FUpdates => case FWarnings =>
    case FPending => case FRestricted =>
  }

  datatype Edit =
    | Patch(projectKey: string, items: seq<Item>, epoch: Option<nat>)
    | ReplaceLocal(projectKey: string, item: Item, epoch: Option<nat>)
    | SetFilter(filter: Filter)
    | Select(selected: Option<ItemId>)

  function Apply(s: State, edit: Edit): State {
    match edit
    case Patch(key, items, epoch) => PatchItems(s, key, items, epoch)
    case ReplaceLocal(key, item, epoch) => ReplaceItemLocal(s, key, item, epoch)
    case SetFilter(filter) => s.(filter := filter)
    case Select(selected) => s.(selected := selected)
  }

  function Run(s: State, edits: seq<Edit>): State {
    if edits == [] then s else Apply(Run(s, edits[..|edits| - 1]), edits[|edits| - 1])
  }

  lemma DeltaKeepsSize(g: Aggregate, m: map<ItemId, Item>, id: ItemId, item: Item)
    requires id in m && SizeAgrees(g, m)
    ensures SizeAgrees(ApplyDelta(g, Project(m[id]), Project(item)), m[id := item])
  {
    assert m[id := item].Keys == m.Keys;
    assert |m[id := item]| == |m[id := item].Keys| == |m.Keys| == |m|;
  }

  lemma PutKeepsAgreement(s: State, s': State, item: Item)
    requires item.id in s.itemById && s'.itemById == s.itemById[item.id := item]
    requires s'.byTask == Reindex(s.byTask, item.id, s.itemById[item.id].taskId, item.taskId)
    requires s'.aggregate == ApplyDelta(s.aggregate, Project(s.itemById[item.id]), Project(item))
    requires Agrees(s)
    ensures Agrees(s') && (AgreesFully(s) ==> AgreesFully(s'))
  {
    DeltaKeepsCounts(s.aggregate, s.itemById, item.id, item);
    ReindexKeepsExact(s.byTask, s.itemById, item.id, item);
    if AgreesFully(s) {
      DeltaKeepsOverview(s.aggregate, s.itemById, item.id, item);
      DeltaKeepsSize(s.aggregate, s.itemById, item.id, item);
    }
  }

  lemma {:induction false} PatchAllKeepsAgreement(s: State, items: seq<Item>)
    requires Agrees(s)
    ensures Agrees(PatchAll(s, items)) && (AgreesFully(s) ==> AgreesFully(PatchAll(s, items)))
    decreases |items|
  {
    if items != [] {
      var mid, item := PatchAll(s, items[..|items| - 1]), items[|items| - 1];
      PatchAllKeepsAgreement(s, items[..|items| - 1]);
      if Takes(mid, item) { PutKeepsAgreement(mid, PatchOne(mid, item), item); }
    }
  }

  lemma ApplyKeepsAgreement(s: State, edit: Edit)
    requires Agrees(s)
    ensures Agrees(Apply(s, edit)) && (AgreesFully(s) ==> AgreesFully(Apply(s, edit)))
  {
    match edit
    case Patch(_, items, _) => PatchAllKeepsAgreement(s, items);
    case ReplaceLocal(_, item, _) => if Apply(s, edit) != s { PutKeepsAgreement(s, Apply(s, edit), item); }
    case SetFilter(_) =>
    case Select(_) =>
  }

  /** From an agreeing state every run of patches and local replacements agrees at
      every point: counters and progress are the sums over the stored items and the
      index is the inverse of their task ids; with a full agreement, so is the
      selection summary of the overview. */
  lemma {:induction false} RunKeepsAgreement(s: State, edits: seq<Edit>)
    requires Agrees(s)
    ensures Agrees(Run(s, edits)) && (AgreesFully(s) ==> AgreesFully(Run(s, edits)))
    decreases |edits|
  {
    if edits != [] {
      RunKeepsAgreement(s, edits[..|edits| - 1]);
      ApplyKeepsAgreement(Run(s, edits[..|edits| - 1]), edits[|edits| - 1]);
    }
  }

  /** The two entry points, followed by any run. */
  lemma {:induction false} AttachedSessionStaysExact(s: State, projectKey: string, session: Session, epoch: Option<nat>, edits: seq<Edit>)
    requires Accepts(s, projectKey, epoch) && Distinct(Ids(session.items))
    ensures Agrees(Run(AttachSession(s, projectKey, session, epoch), edits))
    ensures AgreesFully(Run(ReplaceSession(s, projectKey, session, epoch), edits))
  {
    AttachAgreesIffDistinct(s, projectKey, session, epoch);
    RunKeepsAgreement(AttachSession(s, projectKey, session, epoch), edits);
    ReplaceAgreesFully(s, projectKey, session, epoch);
    RunKeepsAgreement(ReplaceSession(s, projectKey, session, epoch), edits);
  }
}
