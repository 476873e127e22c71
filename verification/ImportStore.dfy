/** The import workbench store (`src/stores/importStore.ts`): normalised items, the
    window of loaded pages, the index by task, and counters that are updated by
    differences. */
module ImportStore {
  import opened Common
  import opened ImportItems

  /** `ImportQueueCounts`. */
  datatype Queue = Queue(all: nat, active: nat, ready: nat, needsAction: nat, failed: nat, completed: nat, waiting: nat)

  /** `ImportSessionProgress`. */
  datatype Progress = Progress(completed: nat, total: nat, active: nat, processed: nat, failed: nat, cancelled: nat, needsAction: nat)

  /** `ImportSessionOverview`, as far as the store uses it. */
  datatype Overview = Overview(sessionId: string, semanticRevision: int, itemCount: nat, counts: Counts, selection: Selection)

  datatype Aggregate = Aggregate(counts: Queue, progress: Progress, overview: Option<Overview>)

  datatype PageKey = WindowPage(filter: Filter, offset: nat) | CompatPage(filter: Filter, offset: nat)

  datatype Session = Session(id: string, items: seq<Item>)

  /** `ImportItemPage`. */
  datatype Page = Page(sessionId: string, snapshotRevision: int, items: seq<Item>, total: nat)

  type TaskIndex = map<string, seq<ItemId>>

  datatype State = State(
    projectKey: Option<string>,
    epoch: nat,
    session: Option<Session>,
    itemById: map<ItemId, Item>,
    pages: map<PageKey, seq<ItemId>>,
    loaded: seq<PageKey>,
    start: nat,
    known: set<ItemId>,
    byTask: TaskIndex,
    aggregate: Aggregate,
    pageTotal: nat,
    selected: Option<ItemId>,
    filter: Filter)

  const PAGE_LIMIT := 200
  const PAGE_WINDOW := 3

  const NO_AGGREGATE := Aggregate(Queue(0, 0, 0, 0, 0, 0, 0), Progress(0, 0, 0, 0, 0, 0, 0), None)

  const EMPTY := State(None, 0, None, map[], map[], [], 0, {}, map[], NO_AGGREGATE, 0, None, All)

  // ---- counters ------------------------------------------------------------------------

  /** `applyNumberDelta`. */
  function Shift(value: nat, before: nat, after: nat): nat {
    if value + after >= before then value + after - before else 0
  }

  function ShiftQueue(q: Queue, b: Counts, a: Counts): Queue {
    Queue(Shift(q.all, b.all, a.all), Shift(q.active, b.active, a.active), Shift(q.ready, b.ready, a.ready),
          Shift(q.needsAction, b.needsAction, a.needsAction), Shift(q.failed, b.failed, a.failed),
          Shift(q.completed, b.completed, a.completed), Shift(q.waiting, b.waiting, a.waiting))
  }

  function ShiftSelection(s: Selection, b: Selection, a: Selection): Selection {
    Selection(Shift(s.selected, b.selected, a.selected), Shift(s.newSources, b.newSources, a.newSources),
              Shift(s.updates, b.updates, a.updates), Shift(s.warnings, b.warnings, a.warnings),
              Shift(s.pending, b.pending, a.pending), Shift(s.restricted, b.restricted, a.restricted))
  }

  /** `applyProjectionDelta`. */
  function ApplyDelta(g: Aggregate, before: Projection, after: Projection): Aggregate {
    if before == after then g
    else
      var q := ShiftQueue(g.counts, before.counts, after.counts);
      var total := if g.overview.Some? then g.overview.value.itemCount else g.progress.total;
      var processed := Shift(g.progress.processed, before.counts.processed, after.counts.processed);
      var cancelled := Shift(g.progress.cancelled, before.counts.cancelled, after.counts.cancelled);
      var progress := Progress(q.completed, total, q.active, processed, q.failed, cancelled, q.needsAction);
      var counts := Counts(q.all, q.active, q.ready, q.needsAction, q.failed, q.completed, q.waiting, processed, cancelled);
      Aggregate(q, progress,
        if g.overview.None? then None
        else Some(g.overview.value.(counts := counts,
                    selection := ShiftSelection(g.overview.value.selection, before.selection, after.selection))))
  }

  /** `queueCountsFromSessionCounts` and `progressFromSessionCounts`. */
  function FromCounts(c: Counts, total: nat, overview: Option<Overview>): Aggregate {
    Aggregate(Queue(c.all, c.active, c.ready, c.needsAction, c.failed, c.completed, c.waiting),
              Progress(c.completed, total, c.active, c.processed, c.failed, c.cancelled, c.needsAction), overview)
  }

  // ---- the index by task ------------------------------------------------------------------

  /** A task id that is present and not the empty string. */
  predicate Named(taskId: Option<string>) { taskId.Some? && taskId.value != "" }

  function Entries(ix: TaskIndex, task: string): seq<ItemId> { if task in ix then ix[task] else [] }

  /** `[...new Set(s)]`. */
  function Dedup(s: seq<ItemId>): seq<ItemId> {
    if s == [] then []
    else
      var init := Dedup(s[..|s| - 1]);
      if s[|s| - 1] in init then init else init + [s[|s| - 1]]
  }

  function Detach(ix: TaskIndex, id: ItemId, taskId: Option<string>): TaskIndex {
    if !Named(taskId) then ix
    else
      var remaining := Without(Entries(ix, taskId.value), id);
      if remaining == [] then ix - {taskId.value} else ix[taskId.value := remaining]
  }

  function Attach(ix: TaskIndex, id: ItemId, taskId: Option<string>): TaskIndex {
    if !Named(taskId) then ix else ix[taskId.value := Dedup(Entries(ix, taskId.value) + [id])]
  }

  function Reindex(ix: TaskIndex, id: ItemId, from: Option<string>, to: Option<string>): TaskIndex {
    if from == to then ix else Attach(Detach(ix, id, from), id, to)
  }

  /** `indexTasks`. */
  function IndexTasks(items: seq<Item>): TaskIndex {
    if items == [] then map[]
    else
      var ix, item := IndexTasks(items[..|items| - 1]), items[|items| - 1];
      if !Named(item.taskId) then ix else ix[item.taskId.value := Entries(ix, item.taskId.value) + [item.id]]
  }

  method BuildTaskIndex(items: seq<Item>) returns (ix: TaskIndex)
    ensures ix == IndexTasks(items)
  {
    ix := map[];
    for i := 0 to |items|
      invariant ix == IndexTasks(items[..i])
    {
      assert items[..i + 1][..i] == items[..i];
      if Named(items[i].taskId) {
        ix := ix[items[i].taskId.value := Entries(ix, items[i].taskId.value) + [items[i].id]];
      }
    }
    assert items[..|items|] == items;
  }

  // ---- pages ----------------------------------------------------------------------------------

  /** `loadedIds`. */
  function LoadedIds(pages: map<PageKey, seq<ItemId>>, loaded: seq<PageKey>): seq<ItemId> {
    if loaded == [] then []
    else LoadedIds(pages, loaded[..|loaded| - 1])
         + (if loaded[|loaded| - 1] in pages then pages[loaded[|loaded| - 1]] else [])
  }

  /** The stored items of the ids, in order. */
  function ItemsOf(itemById: map<ItemId, Item>, ids: seq<ItemId>): seq<Item> {
    if ids == [] then []
    else ItemsOf(itemById, ids[..|ids| - 1])
         + (if ids[|ids| - 1] in itemById then [itemById[ids[|ids| - 1]]] else [])
  }

  /** `selectedItemIdFor`. */
  function StillSelected(known: set<ItemId>, itemById: map<ItemId, Item>, selected: Option<ItemId>): Option<ItemId> {
    if selected.Some? && selected.value != "" && (selected.value in known || selected.value in itemById) then selected else None
  }

  /** `acceptsItemRevision`. */
  predicate AcceptsRevision(current: Item, incoming: Item) {
    current.revision.None? || incoming.revision.None? || incoming.revision.value > current.revision.value
  }

  /** `scopeAccepts`. */
  predicate Accepts(s: State, projectKey: string, epoch: Option<nat>) {
    if s.projectKey.None? && epoch.None? then true
    else s.projectKey == Some(projectKey) && (epoch.None? || epoch.value == s.epoch)
  }

  /** The first loaded page that holds the id loses it. */
  function RemoveFromPages(pages: map<PageKey, seq<ItemId>>, loaded: seq<PageKey>, id: ItemId): map<PageKey, seq<ItemId>> {
    if loaded == [] then pages
    else if loaded[0] in pages && id in pages[loaded[0]] then pages[loaded[0] := Without(pages[loaded[0]], id)]
    else RemoveFromPages(pages, loaded[1..], id)
  }

  /** The last loaded page gets the id in front. */
  function AddToPages(pages: map<PageKey, seq<ItemId>>, loaded: seq<PageKey>, id: ItemId): map<PageKey, seq<ItemId>> {
    if loaded == [] then pages
    else
      var key := loaded[|loaded| - 1];
      var ids := [id] + Without(if key in pages then pages[key] else [], id);
      pages[key := if |ids| > PAGE_LIMIT then ids[..PAGE_LIMIT] else ids]
  }

  // ---- whole sessions ------------------------------------------------------------------------------

  function MatchingIds(items: seq<Item>, filter: Filter): seq<ItemId> {
    if items == [] then []
    else MatchingIds(items[..|items| - 1], filter)
         + (if Matches(items[|items| - 1], filter) then [items[|items| - 1].id] else [])
  }

  function Keep(ids: seq<ItemId>, keep: set<ItemId>): seq<ItemId> {
    if ids == [] then [] else Keep(ids[..|ids| - 1], keep) + (if ids[|ids| - 1] in keep then [ids[|ids| - 1]] else [])
  }

  function Drop(ids: seq<ItemId>, drop: set<ItemId>): seq<ItemId> {
    if ids == [] then [] else Drop(ids[..|ids| - 1], drop) + (if ids[|ids| - 1] in drop then [] else [ids[|ids| - 1]])
  }

  /** `indexOf` clamped at zero. */
  function IndexOrZero(ids: seq<ItemId>, id: ItemId): nat
    decreases |ids|
  {
    if id !in ids then 0 else if ids[0] == id then 0 else 1 + IndexOrZero(ids[1..], id)
  }

  function CompatPages(ids: seq<ItemId>, filter: Filter, offset: nat): map<PageKey, seq<ItemId>>
    decreases |ids|
  {
    if ids == [] then map[]
    else if |ids| <= PAGE_LIMIT then map[CompatPage(filter, offset) := ids]
    else CompatPages(ids[PAGE_LIMIT..], filter, offset + PAGE_LIMIT)[CompatPage(filter, offset) := ids[..PAGE_LIMIT]]
  }

  function CompatKeys(n: nat, filter: Filter, offset: nat): seq<PageKey>
    decreases n
  {
    if n == 0 then []
    else if n <= PAGE_LIMIT then [CompatPage(filter, offset)]
    else [CompatPage(filter, offset)] + CompatKeys(n - PAGE_LIMIT, filter, offset + PAGE_LIMIT)
  }

  predicate SameSession(s: State, id: string) { s.session.Some? && s.session.value.id == id }

  /** The ids that stay in view: those loaded before and new ones for the same
      session, all that match otherwise; at most three pages of them. */
  function BoundedIds(s: State, session: Session): seq<ItemId> {
    var matching := MatchingIds(session.items, s.filter);
    var max := PAGE_LIMIT * PAGE_WINDOW;
    if SameSession(s, session.id) then
      var preferred := Keep(LoadedIds(s.pages, s.loaded), ById(session.items).Keys) + Drop(matching, s.known);
      var ids := Dedup(preferred);
      if |ids| > max then ids[|ids| - max..] else ids
    else
      var ids := Dedup(matching);
      if |ids| > max then ids[..max] else ids
  }

  /** `normalizeFullSession`; the overview is chosen by the caller. */
  function Normalize(s: State, projectKey: string, session: Session, overview: Option<Overview>): State {
    var itemById := ById(session.items);
    var ids := BoundedIds(s, session);
    var first := if ids == [] then 0 else IndexOrZero(MatchingIds(session.items, s.filter), ids[0]);
    var known := Elements(Ids(session.items));
    var aggregate := FromCounts(SumItems(session.items).counts, |session.items|, overview);
    s.(projectKey := Some(projectKey), session := Some(Session(session.id, ItemsOf(itemById, ids))), itemById := itemById,
       pages := CompatPages(ids, s.filter, first), loaded := CompatKeys(|ids|, s.filter, first), start := first,
       known := known, byTask := IndexTasks(session.items), aggregate := aggregate, pageTotal := aggregate.counts.all,
       selected := StillSelected(known, itemById, s.selected))
  }

  /** `attachSession`. */
  function AttachSession(s: State, projectKey: string, session: Session, epoch: Option<nat>): State {
    if !Accepts(s, projectKey, epoch) then s
    else Normalize(s, projectKey, session, if SameSession(s, session.id) then s.aggregate.overview else None)
  }

  /** The overview of `replaceSession`: recomputed from the stored items. */
  ghost function RecomputedOverview(s: State, session: Session): Option<Overview> {
    if s.aggregate.overview.None? || s.aggregate.overview.value.sessionId != session.id then None
    else
      var m := ById(session.items);
      Some(s.aggregate.overview.value.(itemCount := |m|, counts := TotalOf(m).counts, selection := TotalOf(m).selection))
  }

  /** The totals over the stored items; `Object.values` may list them in any order. */
  ghost function TotalOf(m: map<ItemId, Item>): Projection {
    Projection(
      Counts(SumOver(m, Measure(FAll)), SumOver(m, Measure(FActive)), SumOver(m, Measure(FReady)),
             SumOver(m, Measure(FNeedsAction)), SumOver(m, Measure(FFailed)), SumOver(m, Measure(FCompleted)),
             SumOver(m, Measure(FWaiting)), SumOver(m, Measure(FProcessed)), SumOver(m, Measure(FCancelled))),
      Selection(SumOver(m, Measure(FSelected)), SumOver(m, Measure(FNewSources)), SumOver(m, Measure(FUpdates)),
                SumOver(m, Measure(FWarnings)), SumOver(m, Measure(FPending)), SumOver(m, Measure(FRestricted))))
  }

  /** `replaceSession`. */
  ghost function ReplaceSession(s: State, projectKey: string, session: Session, epoch: Option<nat>): State {
    if !Accepts(s, projectKey, epoch) then s else Normalize(s, projectKey, session, RecomputedOverview(s, session))
  }

  // ---- single items ------------------------------------------------------------------------------------

  /** `replaceItemLocal`. */
  function ReplaceItemLocal(s: State, projectKey: string, item: Item, epoch: Option<nat>): State {
    if !Accepts(s, projectKey, epoch) || s.session.None? || item.id !in s.itemById then s
    else
      var current, items := s.itemById[item.id], s.session.value.items;
      s.(itemById := s.itemById[item.id := item],
         byTask := Reindex(s.byTask, item.id, current.taskId, item.taskId),
         session := Some(s.session.value.(items := Substitute(items, item))),
         aggregate := ApplyDelta(s.aggregate, Project(current), Project(item)))
  }

  function Substitute(items: seq<Item>, item: Item): seq<Item> {
    seq(|items|, i requires 0 <= i < |items| => if items[i].id == item.id then item else items[i])
  }

  /** An incoming item is taken over. */
  predicate Takes(s: State, item: Item) { item.id in s.itemById && AcceptsRevision(s.itemById[item.id], item) }

  /** One turn of the loop in `patchItems`. */
  function PatchOne(s: State, item: Item): State {
    if !Takes(s, item) then s
    else
      var current := s.itemById[item.id];
      var was, now := Matches(current, s.filter), Matches(item, s.filter);
      s.(itemById := s.itemById[item.id := item],
         pages := if was == now then s.pages
                  else if was then RemoveFromPages(s.pages, s.loaded, item.id)
                  else AddToPages(s.pages, s.loaded, item.id),
         pageTotal := Shift(s.pageTotal, One(was), One(now)),
         byTask := Reindex(s.byTask, item.id, current.taskId, item.taskId),
         aggregate := ApplyDelta(s.aggregate, Project(current), Project(item)))
  }

  function PatchAll(s: State, items: seq<Item>): State {
    if items == [] then s else PatchOne(PatchAll(s, items[..|items| - 1]), items[|items| - 1])
  }

  /** Some item of the patch is taken over. */
  predicate Changes(s: State, items: seq<Item>) {
    items != [] && (Changes(s, items[..|items| - 1]) || Takes(PatchAll(s, items[..|items| - 1]), items[|items| - 1]))
  }

  /** `patchItems`. */
  function PatchItems(s: State, projectKey: string, items: seq<Item>, epoch: Option<nat>): State {
    if !Accepts(s, projectKey, epoch) || s.session.None? || !Changes(s, items) then s
    else
      var t := PatchAll(s, items);
      t.(session := Some(s.session.value.(items := ItemsOf(t.itemById, LoadedIds(t.pages, t.loaded)))),
         selected := StillSelected(t.known, t.itemById, t.selected))
  }

  // ---- the sliding window -----------------------------------------------------------------------------------

  /** The selected item stays stored. */
  function KeepSelected(m: map<ItemId, Item>, stored: map<ItemId, Item>, selected: Option<ItemId>): map<ItemId, Item> {
    if selected.Some? && selected.value != "" && selected.value in stored && selected.value !in m
    then m[selected.value := stored[selected.value]] else m
  }

  /** `attachSessionWindow`. */
  function AttachWindow(s: State, projectKey: string, overview: Overview, page: Page, epoch: Option<nat>): State {
    if !Accepts(s, projectKey, epoch) || overview.sessionId != page.sessionId || overview.semanticRevision != page.snapshotRevision then s
    else
      var key := WindowPage(s.filter, 0);
      var same := SameSession(s, overview.sessionId);
      var selected := if same then s.selected else None;
      var itemById := KeepSelected(ById(page.items), s.itemById, selected);
      var known := Elements(Ids(page.items))
                   + (if selected.Some? && selected.value != "" && selected.value in s.itemById then {selected.value} else {});
      s.(projectKey := Some(projectKey), session := Some(Session(overview.sessionId, page.items)), itemById := itemById,
         pages := map[key := Ids(page.items)], loaded := [key], start := 0, known := known,
         byTask := IndexTasks(page.items), aggregate := FromCounts(overview.counts, overview.itemCount, Some(overview)),
         pageTotal := page.total, selected := StillSelected(known, itemById, selected))
  }

  datatype Window = Window(pages: map<PageKey, seq<ItemId>>, loaded: seq<PageKey>, start: nat)

  /** The first pages go until three are left. */
  function Evict(w: Window): Window
    decreases |w.loaded|
  {
    if |w.loaded| <= PAGE_WINDOW then w
    else
      var first := w.loaded[0];
      Evict(Window(w.pages - {first}, w.loaded[1..], w.start + if first in w.pages then |w.pages[first]| else 0))
  }

  /** A page is written under the position that follows the window. */
  function Appended(s: State, ids: seq<ItemId>): Window {
    var key := WindowPage(s.filter, s.start + |LoadedIds(s.pages, s.loaded)|);
    Window(s.pages[key := ids], Without(s.loaded, key) + [key], s.start)
  }

  /** The window after a page was appended. */
  function Extended(s: State, ids: seq<ItemId>): Window { Evict(Appended(s, ids)) }

  function Retained(m: map<ItemId, Item>, ids: seq<ItemId>): map<ItemId, Item> {
    map id | id in m && id in ids :: m[id]
  }

  /** Page items replace stored ones unless they are older. */
  function MergePage(base: map<ItemId, Item>, stored: map<ItemId, Item>, items: seq<Item>): map<ItemId, Item> {
    if items == [] then base
    else
      var item := items[|items| - 1];
      MergePage(base, stored, items[..|items| - 1])[item.id :=
        if item.id in stored && !AcceptsRevision(stored[item.id], item) then stored[item.id] else item]
  }

  function AttachAll(ix: TaskIndex, items: seq<Item>): TaskIndex {
    if items == [] then ix
    else Attach(AttachAll(ix, items[..|items| - 1]), items[|items| - 1].id, items[|items| - 1].taskId)
  }

  /** The page belongs to the session and snapshot in view. */
  predicate PageFits(s: State, projectKey: string, page: Page, epoch: Option<nat>) {
    && Accepts(s, projectKey, epoch) && s.session.Some? && s.aggregate.overview.Some?
    && page.sessionId == s.session.value.id && page.snapshotRevision == s.aggregate.overview.value.semanticRevision
  }

  /** `appendItemPage`. */
  function AppendPage(s: State, projectKey: string, page: Page, epoch: Option<nat>): State {
    if !PageFits(s, projectKey, page, epoch) then s
    else
      var w := Extended(s, Ids(page.items));
      var ids := LoadedIds(w.pages, w.loaded);
      var itemById := KeepSelected(MergePage(Retained(s.itemById, ids), s.itemById, page.items), s.itemById, s.selected);
      var known := s.known + Elements(Ids(page.items));
      s.(session := Some(s.session.value.(items := ItemsOf(itemById, ids))), itemById := itemById,
         pages := w.pages, loaded := w.loaded, start := w.start, known := known,
         byTask := AttachAll(s.byTask, page.items), pageTotal := page.total,
         selected := StillSelected(known, itemById, s.selected))
  }
}
