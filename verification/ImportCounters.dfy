/** What the counters of the import workbench count, by the status of the items
    (`src/stores/importStore.ts`). */
module ImportCounters {
  import opened Common
  import opened ImportItems
  import opened ImportStore
  import opened ImportAggregates

  // ---- items by status ----------------------------------------------------------------

  predicate Working(item: Item) { item.status in {Queued, Inspecting, Extracting, Validating, Committing} }

  predicate Blocked(item: Item) { item.status in {WaitingCapability, WaitingLogin, WaitingAuthorization} }

  predicate Handled(item: Item) { item.status in {PreviewReady, NeedsMerge, Completed, ImportItems.Failed, Cancelled, Skipped} }

  predicate Resolves(item: Item, kind: ResolutionKind) {
    match item.preview case Some(Preview(_, Some(Resolution(k, _)))) => k == kind case _ => false
  }

  /** A merge for which a default has been chosen. */
  predicate Decided(item: Item) {
    match item.preview case Some(Preview(_, Some(Resolution(NeedsThreeWayMerge, true)))) => true case _ => false
  }

  /** A preview that is no duplicate or is restricted, or a decided merge. */
  predicate Importable(item: Item) {
    match item.status
    case PreviewReady => Resolves(item, ExactDuplicate) ==> item.restricted
    case NeedsMerge => Decided(item)
    case _ => false
  }

  /** Blocked, paused, or a merge that is not decided. */
  predicate AsksUser(item: Item) {
    Blocked(item) || item.status == Paused || (item.status == NeedsMerge && !Decided(item))
  }

  /** Selected and importable, with a preview that did not fail. */
  predicate Chosen(item: Item) {
    item.selected && Importable(item) && item.preview.Some? && item.preview.value.quality in {Pass, Warning}
  }

  /** The items a counter is for. */
  predicate Counted(item: Item, f: Field) {
    match f
    case FAll => item.status !in {Completed, Skipped}
    case FActive => Working(item)
    case FReady => Importable(item)
    case FNeedsAction => AsksUser(item)
    case FFailed => item.status.Failed?
    case FCompleted => item.status.Completed?
    case FWaiting => Blocked(item)
    case FProcessed => Handled(item)
    case FCancelled => item.status.Cancelled?
    case FSelected => Chosen(item)
    case FNewSources => Chosen(item) && Resolves(item, NewSource)
    case FUpdates => Chosen(item) && (Resolves(item, SameSourceNewVersion) || Resolves(item, NeedsThreeWayMerge))
    case FWarnings => Chosen(item) && item.preview.value.quality.Warning?
    case FPending => AsksUser(item) || item.status.Failed?
    case FRestricted => Chosen(item) && item.restricted
  }

  /** Each queue and progress counter is the number of items with its status. */
  ghost predicate CountsByStatus<K(!new)>(c: Counts, m: map<K, Item>) {
    && c.all == |set k | k in m && m[k].status !in {Completed, Skipped}|
    && c.active == |set k | k in m && Working(m[k])|
    && c.ready == |set k | k in m && Importable(m[k])|
    && c.needsAction == |set k | k in m && AsksUser(m[k])|
    && c.failed == |set k | k in m && m[k].status.Failed?|
    && c.completed == |set k | k in m && m[k].status.Completed?|
    && c.waiting == |set k | k in m && Blocked(m[k])|
    && c.processed == |set k | k in m && Handled(m[k])|
    && c.cancelled == |set k | k in m && m[k].status.Cancelled?|
  }

  /** Each counter of the selection summary likewise. */
  ghost predicate SelectionByStatus<K(!new)>(s: Selection, m: map<K, Item>) {
    && s.selected == |set k | k in m && Chosen(m[k])|
    && s.newSources == |set k | k in m && Chosen(m[k]) && Resolves(m[k], NewSource)|
    && s.updates == |set k | k in m && Chosen(m[k]) && (Resolves(m[k], SameSourceNewVersion) || Resolves(m[k], NeedsThreeWayMerge))|
    && s.warnings == |set k | k in m && Chosen(m[k]) && m[k].preview.value.quality.Warning?|
    && s.pending == |set k | k in m && (AsksUser(m[k]) || m[k].status.Failed?)|
    && s.restricted == |set k | k in m && Chosen(m[k]) && m[k].restricted|
  }

  /** What one item contributes to each counter. */
  lemma ProjectMeans(item: Item, f: Field)
    ensures Read(Project(item), f) == One(Counted(item, f))
  {
  }

  /** The filters, by status. */
  lemma MatchesMeans(item: Item)
    ensures Matches(item, All) <==> item.status !in {Completed, Skipped}
    ensures Matches(item, ActiveItems) <==> item.status in {Queued, Inspecting, Extracting, Validating, Committing}
    ensures Matches(item, Ready) <==> Importable(item)
    ensures Matches(item, NeedsAction) <==> AsksUser(item)
    ensures Matches(item, FailedItems) <==> item.status.Failed?
    ensures Matches(item, CompletedItems) <==> item.status.Completed?
  {
    forall f: Field ensures Read(Project(item), f) == One(Counted(item, f)) { ProjectMeans(item, f); }
  }

  // ---- sums are sizes ---------------------------------------------------------------------

  ghost function Having<K(!new)>(m: map<K, Item>, f: Field): set<K> { set k | k in m && Counted(m[k], f) }

  /** A sum of zeros and ones is the number of ones. */
  lemma {:induction false} SumIsSize(m: map<ItemId, Item>, w: Item -> nat, ids: set<ItemId>)
    requires ids <= m.Keys && forall id :: id in m ==> w(m[id]) == One(id in ids)
    ensures SumOver(m, w) == |ids|
    decreases |m|
  {
    if m == map[] {
      assert ids == {};
    } else {
      var k :| k in m;
      SumOverRemove(m, k, w);
      SumIsSize(m - {k}, w, ids - {k});
    }
  }

  lemma {:induction false} ListSumIsSize(items: seq<Item>, w: Item -> nat, at: set<int>)
    requires forall i :: i in at ==> 0 <= i < |items|
    requires forall i :: 0 <= i < |items| ==> w(items[i]) == One(i in at)
    ensures SumList(items, w) == |at|
    decreases |items|
  {
    if items == [] {
      assert forall i :: i !in at;
      assert at == {};
    } else {
      ListSumIsSize(items[..|items| - 1], w, at - {|items| - 1});
    }
  }

  lemma CounterIsSize(m: map<ItemId, Item>, f: Field)
    ensures SumOver(m, Measure(f)) == |Having(m, f)|
  {
    forall id | id in m ensures Measure(f)(m[id]) == One(id in Having(m, f)) { ProjectMeans(m[id], f); }
    SumIsSize(m, Measure(f), Having(m, f));
  }

  /** The places of a list. */
  function Places(items: seq<Item>): map<int, Item> { map i | 0 <= i < |items| :: items[i] }

  lemma {:induction false} ListCounterIsSize(items: seq<Item>, f: Field)
    ensures Read(SumItems(items), f) == |Having(Places(items), f)|
  {
    var at := Having(Places(items), f);
    forall i | 0 <= i < |items| ensures Measure(f)(items[i]) == One(i in at) { ProjectMeans(items[i], f); }
    SumItemsReads(items, f);
    ListSumIsSize(items, Measure(f), at);
  }

  lemma CountsFromSizes<K(!new)>(c: Counts, m: map<K, Item>)
    ensures CountsByStatus(c, m) <==> forall f: Field :: IsCount(f) ==> Read(Projection(c, NO_SELECTION), f) == |Having(m, f)|
  {
    var p := Projection(c, NO_SELECTION);
    assert Having(m, FAll) == set k | k in m && m[k].status !in {Completed, Skipped};
    assert Having(m, FActive) == set k | k in m && Working(m[k]);
    assert Having(m, FReady) == set k | k in m && Importable(m[k]);
    assert Having(m, FNeedsAction) == set k | k in m && AsksUser(m[k]);
    assert Having(m, FFailed) == set k | k in m && m[k].status.Failed?;
    assert Having(m, FCompleted) == set k | k in m && m[k].status.Completed?;
    assert Having(m, FWaiting) == set k | k in m && Blocked(m[k]);
    assert Having(m, FProcessed) == set k | k in m && Handled(m[k]);
    assert Having(m, FCancelled) == set k | k in m && m[k].status.Cancelled?;
    assert Read(p, FAll) == c.all && Read(p, FActive) == c.active && Read(p, FReady) == c.ready && Read(p, FNeedsAction) == c.needsAction;
    assert Read(p, FFailed) == c.failed && Read(p, FCompleted) == c.completed && Read(p, FWaiting) == c.waiting;
    assert Read(p, FProcessed) == c.processed && Read(p, FCancelled) == c.cancelled;
  }

  lemma SelectionFromSizes<K(!new)>(c: Selection, m: map<K, Item>)
    ensures SelectionByStatus(c, m) <==> forall f: Field :: !IsCount(f) ==> Read(Projection(NO_COUNTS, c), f) == |Having(m, f)|
  {
    var p := Projection(NO_COUNTS, c);
    assert Having(m, FSelected) == set k | k in m && Chosen(m[k]);
    assert Having(m, FNewSources) == set k | k in m && Chosen(m[k]) && Resolves(m[k], NewSource);
    assert Having(m, FUpdates)
        == set k | k in m && Chosen(m[k]) && (Resolves(m[k], SameSourceNewVersion) || Resolves(m[k], NeedsThreeWayMerge));
    assert Having(m, FWarnings) == set k | k in m && Chosen(m[k]) && m[k].preview.value.quality.Warning?;
    assert Having(m, FPending) == set k | k in m && (AsksUser(m[k]) || m[k].status.Failed?);
    assert Having(m, FRestricted) == set k | k in m && Chosen(m[k]) && m[k].restricted;
    assert Read(p, FSelected) == c.selected && Read(p, FNewSources) == c.newSources && Read(p, FUpdates) == c.updates;
    assert Read(p, FWarnings) == c.warnings && Read(p, FPending) == c.pending && Read(p, FRestricted) == c.restricted;
  }

  lemma TotalsFromSizes<K(!new)>(p: Projection, m: map<K, Item>)
    ensures CountsByStatus(p.counts, m) && SelectionByStatus(p.selection, m) <==> forall f: Field :: Read(p, f) == |Having(m, f)|
  {
    CountsFromSizes(p.counts, m);
    SelectionFromSizes(p.selection, m);
    forall f: Field
      ensures Read(p, f) == if IsCount(f) then Read(Projection(p.counts, NO_SELECTION), f) else Read(Projection(NO_COUNTS, p.selection), f)
    {
    }
  }

  /** The totals of a list count its places by status. */
  lemma {:induction false} ListTotalsCount(items: seq<Item>)
    ensures CountsByStatus(SumItems(items).counts, Places(items)) && SelectionByStatus(SumItems(items).selection, Places(items))
  {
    forall f: Field ensures Read(SumItems(items), f) == |Having(Places(items), f)| { ListCounterIsSize(items, f); }
    TotalsFromSizes(SumItems(items), Places(items));
  }

  // ---- the workbench ------------------------------------------------------------------------

  /** The counters of the state, by status: the seven of the queue, and the progress. */
  ghost predicate CountersExact(g: Aggregate, m: map<ItemId, Item>) {
    && CountsByStatus(Counts(g.counts.all, g.counts.active, g.counts.ready, g.counts.needsAction, g.counts.failed,
                             g.counts.completed, g.counts.waiting, g.progress.processed, g.progress.cancelled), m)
    && g.progress.completed == |set id | id in m && m[id].status.Completed?|
    && g.progress.active == |set id | id in m && Working(m[id])|
    && g.progress.failed == |set id | id in m && m[id].status.Failed?|
    && g.progress.needsAction == |set id | id in m && AsksUser(m[id])|
  }

  /** A present overview, by status, with the number of items. */
  ghost predicate OverviewExact(g: Aggregate, m: map<ItemId, Item>) {
    && g.progress.total == |m|
    && (g.overview.Some? ==>
          && g.overview.value.itemCount == |m| && CountsByStatus(g.overview.value.counts, m)
          && SelectionByStatus(g.overview.value.selection, m))
  }

  /** Equal to full recomputation is the same as counting by status. */
  lemma AgreeMeansExact(g: Aggregate, m: map<ItemId, Item>)
    ensures CountsAgree(g, m) <==> CountersExact(g, m)
  {
    var c := Shown(g).counts;
    CountsFromSizes(c, m);
    forall f: Field ensures SumOver(m, Measure(f)) == |Having(m, f)| { CounterIsSize(m, f); }
    assert Shown(g) == Projection(c, NO_SELECTION);
  }

  lemma OverviewMeansExact(g: Aggregate, m: map<ItemId, Item>)
    ensures OverviewAgrees(g, m) && SizeAgrees(g, m) <==> OverviewExact(g, m)
  {
    if g.overview.Some? {
      TotalsFromSizes(Projection(g.overview.value.counts, g.overview.value.selection), m);
      forall f: Field ensures SumOver(m, Measure(f)) == |Having(m, f)| { CounterIsSize(m, f); }
    }
  }

  /** Over every run of patches and local replacements: counters that count their items
      by status, with an exact index, keep doing so; so do those of the overview. */
  lemma {:induction false} RunCountsByStatus(s: State, edits: seq<Edit>)
    requires CountersExact(s.aggregate, s.itemById) && IndexExact(s.byTask, s.itemById)
    ensures var t := Run(s, edits);
            && CountersExact(t.aggregate, t.itemById) && IndexExact(t.byTask, t.itemById)
            && (OverviewExact(s.aggregate, s.itemById) ==> OverviewExact(t.aggregate, t.itemById))
  {
    var t := Run(s, edits);
    AgreeMeansExact(s.aggregate, s.itemById);
    OverviewMeansExact(s.aggregate, s.itemById);
    RunKeepsAgreement(s, edits);
    AgreeMeansExact(t.aggregate, t.itemById);
    OverviewMeansExact(t.aggregate, t.itemById);
  }

  /** After either entry point with distinct item ids and any run, every counter is the
      number of stored items with its status; after a replacement, the selection summary
      and the number of items too. */
  lemma {:induction false} SessionCountsByStatus(s: State, projectKey: string, session: Session, epoch: Option<nat>, edits: seq<Edit>)
    requires Accepts(s, projectKey, epoch) && Distinct(Ids(session.items))
    ensures var t := Run(AttachSession(s, projectKey, session, epoch), edits);
            && CountersExact(t.aggregate, t.itemById)
            && t.aggregate.counts.failed == |set id | id in t.itemById && t.itemById[id].status.Failed?|
            && t.aggregate.progress.cancelled == |set id | id in t.itemById && t.itemById[id].status.Cancelled?|
    ensures var t := Run(ReplaceSession(s, projectKey, session, epoch), edits);
            CountersExact(t.aggregate, t.itemById) && OverviewExact(t.aggregate, t.itemById)
  {
    AttachedSessionStaysExact(s, projectKey, session, epoch, edits);
    var t := Run(AttachSession(s, projectKey, session, epoch), edits);
    AgreeMeansExact(t.aggregate, t.itemById);
    var u := Run(ReplaceSession(s, projectKey, session, epoch), edits);
    AgreeMeansExact(u.aggregate, u.itemById);
    OverviewMeansExact(u.aggregate, u.itemById);
  }
}
