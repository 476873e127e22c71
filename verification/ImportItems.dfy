/** Import items and what each one contributes to the counters
    (`src/stores/importStore.ts`, `src/types/importV2.ts`). */
module ImportItems {
  import opened Common

  type ItemId = string

  datatype ItemStatus =
    | Queued | Inspecting | WaitingCapability | WaitingLogin | WaitingAuthorization | Extracting | Validating
    | PreviewReady | NeedsMerge | Committing | Completed | Paused | Cancelled | Skipped | Failed

  datatype ResolutionKind = NewSource | ExactDuplicate | SameSourceNewVersion | NeedsThreeWayMerge
  datatype Resolution = Resolution(kind: ResolutionKind, hasDefault: bool)
  datatype Quality = Pass | Warning | Fail
  datatype Preview = Preview(quality: Quality, resolution: Option<Resolution>)

  /** `ImportItem`; `rest` stands for the fields no counter looks at. */
  datatype Item = Item(
    id: ItemId,
    revision: Option<int>,
    status: ItemStatus,
    selected: bool,
    taskId: Option<string>,
    preview: Option<Preview>,
    restricted: bool,
    rest: string)

  /** `ImportSessionCounts`. */
  datatype Counts = Counts(
    all: nat, active: nat, ready: nat, needsAction: nat, failed: nat, completed: nat, waiting: nat,
    processed: nat, cancelled: nat)

  /** `ImportSelectionSummary`. */
  datatype Selection = Selection(selected: nat, newSources: nat, updates: nat, warnings: nat, pending: nat, restricted: nat)

  datatype Projection = Projection(counts: Counts, selection: Selection)

  datatype Filter = All | ActiveItems | Ready | NeedsAction | FailedItems | CompletedItems

  const NO_COUNTS := Counts(0, 0, 0, 0, 0, 0, 0, 0, 0)
  const NO_SELECTION := Selection(0, 0, 0, 0, 0, 0)

  function One(b: bool): nat { if b then 1 else 0 }

  predicate HasKind(item: Item, kind: ResolutionKind) {
    item.preview.Some? && item.preview.value.resolution.Some? && item.preview.value.resolution.value.kind == kind
  }

  predicate ResolvedMerge(item: Item) {
    item.status.NeedsMerge? && HasKind(item, NeedsThreeWayMerge) && item.preview.value.resolution.value.hasDefault
  }

  predicate IsReady(item: Item) {
    (item.status.PreviewReady? && (!HasKind(item, ExactDuplicate) || item.restricted)) || ResolvedMerge(item)
  }

  predicate Committable(item: Item) {
    item.selected && item.preview.Some? && !item.preview.value.quality.Fail? && IsReady(item)
  }

  predicate IsWaiting(item: Item) {
    item.status.WaitingCapability? || item.status.WaitingLogin? || item.status.WaitingAuthorization?
  }

  predicate IsNeedsAction(item: Item) {
    IsWaiting(item) || item.status.Paused? || (item.status.NeedsMerge? && !ResolvedMerge(item))
  }

  /** `projectItem`. */
  function Project(item: Item): Projection {
    var st := item.status;
    var finished := st.Completed? || st.Skipped?;
    var committable := Committable(item);
    Projection(
      Counts(
        One(!finished),
        One(st.Queued? || st.Inspecting? || st.Extracting? || st.Validating? || st.Committing?),
        One(IsReady(item) && !finished),
        One(IsNeedsAction(item) && !finished),
        One(st.Failed?),
        One(st.Completed?),
        One(IsWaiting(item)),
        One(st.PreviewReady? || st.NeedsMerge? || st.Completed? || st.Failed? || st.Cancelled? || st.Skipped?),
        One(st.Cancelled?)),
      Selection(
        One(committable),
        One(committable && HasKind(item, NewSource)),
        One(committable && (HasKind(item, SameSourceNewVersion) || HasKind(item, NeedsThreeWayMerge))),
        One(committable && item.preview.Some? && item.preview.value.quality.Warning?),
        One(IsNeedsAction(item) || st.Failed?),
        One(committable && item.restricted)))
  }

  /** `itemMatchesFilter`. */
  predicate Matches(item: Item, filter: Filter) {
    var c := Project(item).counts;
    match filter
    case All => c.all == 1
    case ActiveItems => c.active == 1
    case Ready => c.ready == 1
    case NeedsAction => c.needsAction == 1
    case FailedItems => c.failed == 1
    case CompletedItems => c.completed == 1
  }

  function AddCounts(a: Counts, b: Counts): Counts {
    Counts(a.all + b.all, a.active + b.active, a.ready + b.ready, a.needsAction + b.needsAction, a.failed + b.failed,
           a.completed + b.completed, a.waiting + b.waiting, a.processed + b.processed, a.cancelled + b.cancelled)
  }

  function AddSelection(a: Selection, b: Selection): Selection {
    Selection(a.selected + b.selected, a.newSources + b.newSources, a.updates + b.updates, a.warnings + b.warnings,
              a.pending + b.pending, a.restricted + b.restricted)
  }

  function Add(a: Projection, b: Projection): Projection {
    Projection(AddCounts(a.counts, b.counts), AddSelection(a.selection, b.selection))
  }

  const NOTHING := Projection(NO_COUNTS, NO_SELECTION)

  /** The counters, one by one. */
  datatype Field =
    | FAll | FActive | FReady | FNeedsAction | FFailed | FCompleted | FWaiting | FProcessed | FCancelled
    | FSelected | FNewSources | FUpdates | FWarnings | FPending | FRestricted

  function Read(p: Projection, f: Field): nat {
    match f
    case FAll => p.counts.all
    case FActive => p.counts.active
    case FReady => p.counts.ready
    case FNeedsAction => p.counts.needsAction
    case FFailed => p.counts.failed
    case FCompleted => p.counts.completed
    case FWaiting => p.counts.waiting
    case FProcessed => p.counts.processed
    case FCancelled => p.counts.cancelled
    case FSelected => p.selection.selected
    case FNewSources => p.selection.newSources
    case FUpdates => p.selection.updates
    case FWarnings => p.selection.warnings
    case FPending => p.selection.pending
    case FRestricted => p.selection.restricted
  }

  /** What an item contributes to a counter. */
  function Measure(f: Field): Item -> nat { (item: Item) => Read(Project(item), f) }

  lemma ReadAdd(a: Projection, b: Projection, f: Field)
    ensures Read(Add(a, b), f) == Read(a, f) + Read(b, f)
  {
  }

  /** `projectionsFor`, as a left-to-right sum. */
  function SumItems(items: seq<Item>): Projection {
    if items == [] then NOTHING else Add(SumItems(items[..|items| - 1]), Project(items[|items| - 1]))
  }

  method ProjectionsFor(items: seq<Item>) returns (total: Projection)
    ensures total == SumItems(items)
  {
    var counts, selection := NO_COUNTS, NO_SELECTION;
    for i := 0 to |items|
      invariant Projection(counts, selection) == SumItems(items[..i])
    {
      var p := Project(items[i]);
      counts, selection := AddCounts(counts, p.counts), AddSelection(selection, p.selection);
      assert items[..i + 1][..i] == items[..i];
    }
    assert items[..|items|] == items;
    total := Projection(counts, selection);
  }

  /** Full recomputation over the stored items, in any order. */
  ghost function SumOver(m: map<ItemId, Item>, w: Item -> nat): nat
    decreases |m|
  {
    if m == map[] then 0 else var k :| k in m; w(m[k]) + SumOver(m - {k}, w)
  }

  lemma {:induction false} SumOverRemove(m: map<ItemId, Item>, k: ItemId, w: Item -> nat)
    requires k in m
    ensures SumOver(m, w) == w(m[k]) + SumOver(m - {k}, w)
    decreases |m|
  {
    var j :| j in m && SumOver(m, w) == w(m[j]) + SumOver(m - {j}, w);
    if j != k {
      SumOverRemove(m - {j}, k, w);
      SumOverRemove(m - {k}, j, w);
      assert m - {j} - {k} == m - {k} - {j};
    }
  }

  lemma SumOverReplace(m: map<ItemId, Item>, k: ItemId, item: Item, w: Item -> nat)
    requires k in m
    ensures SumOver(m[k := item], w) + w(m[k]) == SumOver(m, w) + w(item)
  {
    SumOverRemove(m, k, w);
    SumOverRemove(m[k := item], k, w);
    assert m[k := item] - {k} == m - {k};
  }

  lemma SumOverInsert(m: map<ItemId, Item>, k: ItemId, item: Item, w: Item -> nat)
    requires k !in m
    ensures SumOver(m[k := item], w) == SumOver(m, w) + w(item)
  {
    SumOverRemove(m[k := item], k, w);
    assert m[k := item] - {k} == m;
  }

  /** The sum over a list. */
  ghost function SumList(items: seq<Item>, w: Item -> nat): nat {
    if items == [] then 0 else SumList(items[..|items| - 1], w) + w(items[|items| - 1])
  }

  lemma {:induction false} SumItemsReads(items: seq<Item>, f: Field)
    ensures Read(SumItems(items), f) == SumList(items, Measure(f))
  {
    if items != [] {
      SumItemsReads(items[..|items| - 1], f);
      ReadAdd(SumItems(items[..|items| - 1]), Project(items[|items| - 1]), f);
    }
  }

  /** `Object.fromEntries`: the last item of an id wins. */
  function ById(items: seq<Item>): map<ItemId, Item> {
    if items == [] then map[] else ById(items[..|items| - 1])[items[|items| - 1].id := items[|items| - 1]]
  }

  function Ids(items: seq<Item>): seq<ItemId> { seq(|items|, i requires 0 <= i < |items| => items[i].id) }

  lemma {:induction false} ByIdHas(items: seq<Item>)
    ensures forall id :: id in ById(items) <==> id in Ids(items)
    ensures forall id :: id in ById(items) ==> ById(items)[id] in items && ById(items)[id].id == id
  {
    if items != [] {
      var n := |items| - 1;
      ByIdHas(items[..n]);
      assert Ids(items) == Ids(items[..n]) + [items[n].id];
    }
  }

  lemma {:induction false} ByIdDistinct(items: seq<Item>, i: nat)
    requires Distinct(Ids(items)) && i < |items|
    ensures items[i].id in ById(items) && ById(items)[items[i].id] == items[i]
  {
    var n := |items| - 1;
    var ids := Ids(items);
    assert Ids(items[..n]) == ids[..n];
    if i < n {
      assert ids[i] != ids[n];
      ByIdDistinct(items[..n], i);
    }
  }

  /** Every item is in at least one of these three counters. */
  function Presence(): Item -> nat {
    (item: Item) => Project(item).counts.all + Project(item).counts.completed + Project(item).counts.processed
  }

  lemma ItemsArePresent(item: Item)
    ensures Presence()(item) >= 1
  {
  }

  lemma {:induction false} ListSumIsMapSum(items: seq<Item>, w: Item -> nat)
    requires Distinct(Ids(items))
    ensures SumList(items, w) == SumOver(ById(items), w)
    decreases |items|
  {
    if items != [] {
      var n := |items| - 1;
      var ids := Ids(items);
      assert Ids(items[..n]) == ids[..n] && forall i :: 0 <= i < n ==> ids[i] != ids[n];
      ListSumIsMapSum(items[..n], w);
      ByIdHas(items[..n]);
      SumOverInsert(ById(items[..n]), items[n].id, items[n], w);
    }
  }

  lemma {:induction false} ListSumIsLarger(items: seq<Item>, w: Item -> nat)
    requires forall item :: w(item) >= 1
    ensures SumList(items, w) >= SumOver(ById(items), w)
    ensures !Distinct(Ids(items)) ==> SumList(items, w) > SumOver(ById(items), w)
    decreases |items|
  {
    if items != [] {
      var n := |items| - 1;
      var ids := Ids(items);
      assert Ids(items[..n]) == ids[..n];
      ListSumIsLarger(items[..n], w);
      ByIdHas(items[..n]);
      if items[n].id in ById(items[..n]) {
        SumOverReplace(ById(items[..n]), items[n].id, items[n], w);
      } else {
        SumOverInsert(ById(items[..n]), items[n].id, items[n], w);
        assert forall i :: 0 <= i < n ==> ids[i] != ids[n];
        assert !Distinct(ids) ==> !Distinct(ids[..n]);
      }
    }
  }

  /** The total equals a full recomputation over the stored items. */
  ghost predicate Totals(p: Projection, m: map<ItemId, Item>) {
    forall f: Field :: Read(p, f) == SumOver(m, Measure(f))
  }

  lemma {:induction false} SumSplits(m: map<ItemId, Item>, w: Item -> nat, a: Item -> nat, b: Item -> nat, c: Item -> nat)
    requires forall item :: w(item) == a(item) + b(item) + c(item)
    ensures SumOver(m, w) == SumOver(m, a) + SumOver(m, b) + SumOver(m, c)
    decreases |m|
  {
    if m != map[] {
      var k :| k in m;
      SumSplits(m - {k}, w, a, b, c);
      SumOverRemove(m, k, w);
      SumOverRemove(m, k, a);
      SumOverRemove(m, k, b);
      SumOverRemove(m, k, c);
    }
  }

  lemma {:induction false} PresenceSplitsList(items: seq<Item>)
    ensures SumList(items, Presence())
         == SumList(items, Measure(FAll)) + SumList(items, Measure(FCompleted)) + SumList(items, Measure(FProcessed))
    decreases |items|
  {
    if items != [] { PresenceSplitsList(items[..|items| - 1]); }
  }

  predicate IsCount(f: Field) {
    f.FAll? || f.FActive? || f.FReady? || f.FNeedsAction? || f.FFailed? || f.FCompleted? || f.FWaiting? || f.FProcessed?
    || f.FCancelled?
  }

  /** The counters other than the selection summary equal a full recomputation. */
  ghost predicate CountTotals(p: Projection, m: map<ItemId, Item>) {
    forall f: Field :: IsCount(f) ==> Read(p, f) == SumOver(m, Measure(f))
  }

  lemma {:induction false} DistinctTotals(items: seq<Item>)
    requires Distinct(Ids(items))
    ensures Totals(SumItems(items), ById(items))
  {
    forall f: Field ensures Read(SumItems(items), f) == SumOver(ById(items), Measure(f)) {
      SumItemsReads(items, f);
      ListSumIsMapSum(items, Measure(f));
    }
  }

  /** Summing a list counts an id as often as it occurs, while it is stored once. The
      two totals agree exactly if no id occurs twice. */
  lemma {:induction false} TotalsAgreeIffDistinct(items: seq<Item>)
    ensures CountTotals(SumItems(items), ById(items)) <==> Distinct(Ids(items))
  {
    if Distinct(Ids(items)) {
      DistinctTotals(items);
    } else {
      forall item ensures Presence()(item) >= 1 { ItemsArePresent(item); }
      ListSumIsLarger(items, Presence());
      SumSplits(ById(items), Presence(), Measure(FAll), Measure(FCompleted), Measure(FProcessed));
      PresenceSplitsList(items);
      SumItemsReads(items, FAll);
      SumItemsReads(items, FCompleted);
      SumItemsReads(items, FProcessed);
      assert IsCount(FAll) && IsCount(FCompleted) && IsCount(FProcessed);
    }
  }
}
