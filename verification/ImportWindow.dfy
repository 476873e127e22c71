/** The sliding page window of the import workbench shows a suffix of everything
    fetched (`attachSessionWindow` and `appendItemPage` in
    `src/stores/importStore.ts`). */
module ImportWindow {
  import opened Common
  import opened ImportItems
  import opened ImportStore
  import A = ImportAggregates

  type Pages = map<PageKey, seq<ItemId>>

  function PageIds(pages: Pages, key: PageKey): seq<ItemId> { if key in pages then pages[key] else [] }

  /** Each loaded page is named by the position of its first item among all items
      fetched. */
  predicate Placed(pages: Pages, loaded: seq<PageKey>, start: nat) {
    loaded == [] ||
    var init, last := loaded[..|loaded| - 1], loaded[|loaded| - 1];
    Placed(pages, init, start) && last.WindowPage? && last.offset == start + |LoadedIds(pages, init)|
  }

  /** The pages kept are exactly the loaded ones, each listed once. */
  predicate KeysOk(pages: Pages, loaded: seq<PageKey>)
    decreases |loaded|
  {
    if loaded == [] then pages == map[] else loaded[0] in pages && KeysOk(pages - {loaded[0]}, loaded[1..])
  }

  predicate FrameOk(w: Window) {
    KeysOk(w.pages, w.loaded) && Placed(w.pages, w.loaded, w.start)
  }

  /** The ids in view. */
  function Shown(w: Window): seq<ItemId> { LoadedIds(w.pages, w.loaded) }

  /** The stored items are filed under their own ids. */
  ghost predicate Filed(m: map<ItemId, Item>) {
    forall id :: id in m ==> m[id].id == id
  }

  /** The window shows what was fetched from `start` on, in at most three pages, and
      the session lists the stored items of exactly those ids. */
  ghost predicate WindowOk(s: State, fetched: seq<ItemId>) {
    && s.session.Some?
    && FrameOk(Window(s.pages, s.loaded, s.start)) && |s.loaded| <= PAGE_WINDOW
    && s.start <= |fetched| && LoadedIds(s.pages, s.loaded) == fetched[s.start..]
    && Filed(s.itemById) && (forall id :: id in LoadedIds(s.pages, s.loaded) ==> id in s.itemById)
    && s.session.value.items == ItemsOf(s.itemById, LoadedIds(s.pages, s.loaded))
  }

  // ---- lists and look-ups ----------------------------------------------------------------

  lemma {:induction false} WithoutSnoc(s: seq<PageKey>, x: PageKey, k: PageKey)
    ensures Without(s + [x], k) == Without(s, k) + (if x == k then [] else [x])
    decreases |s|
  {
    if s == [] {
      assert s + [x] == [x] && [x][1..] == [];
    } else {
      assert (s + [x])[1..] == s[1..] + [x];
      WithoutSnoc(s[1..], x, k);
    }
  }

  lemma {:induction false} LoadedSnoc(pages: Pages, init: seq<PageKey>, last: PageKey)
    ensures LoadedIds(pages, init + [last]) == LoadedIds(pages, init) + PageIds(pages, last)
  {
    assert (init + [last])[..|init|] == init;
  }

  lemma {:induction false} PlacedSnoc(pages: Pages, init: seq<PageKey>, key: PageKey, start: nat)
    requires Placed(pages, init, start) && key.WindowPage? && key.offset == start + |LoadedIds(pages, init)|
    ensures Placed(pages, init + [key], start)
  {
    assert (init + [key])[..|init|] == init;
  }

  // One more page: it keeps its place, or it is the empty page of the same name.
  lemma {:induction false} WriteNextStep(pages: Pages, init: seq<PageKey>, last: PageKey, start: nat, key: PageKey, ids: seq<ItemId>)
    requires last.WindowPage? && last.offset == start + |LoadedIds(pages, init)|
    requires key.offset >= start + |LoadedIds(pages, init + [last])|
    requires LoadedIds(pages[key := ids], Without(init, key)) == LoadedIds(pages, init)
    requires Placed(pages[key := ids], Without(init, key), start)
    ensures LoadedIds(pages[key := ids], Without(init + [last], key)) == LoadedIds(pages, init + [last])
    ensures Placed(pages[key := ids], Without(init + [last], key), start)
  {
    WithoutSnoc(init, last, key);
    LoadedSnoc(pages, init, last);
    var kept := Without(init, key);
    if last == key {
      assert PageIds(pages, last) == [] && Without(init + [last], key) == kept;
    } else {
      LoadedSnoc(pages[key := ids], kept, last);
      PlacedSnoc(pages[key := ids], kept, last, start);
    }
  }

  /** Writing the next page under its key does not disturb the pages before: a page
      of the same name can only be an empty one. */
  lemma {:induction false} WriteNextPage(pages: Pages, loaded: seq<PageKey>, start: nat, key: PageKey, ids: seq<ItemId>)
    requires Placed(pages, loaded, start) && key.WindowPage? && key.offset >= start + |LoadedIds(pages, loaded)|
    ensures LoadedIds(pages[key := ids], Without(loaded, key)) == LoadedIds(pages, loaded)
    ensures Placed(pages[key := ids], Without(loaded, key), start)
    decreases |loaded|
  {
    if loaded != [] {
      var init, last := loaded[..|loaded| - 1], loaded[|loaded| - 1];
      assert loaded == init + [last];
      LoadedSnoc(pages, init, last);
      WriteNextPage(pages, init, start, key, ids);
      WriteNextStep(pages, init, last, start, key, ids);
    }
  }

  lemma {:induction false} LoadedCons(pages: Pages, first: PageKey, rest: seq<PageKey>)
    ensures LoadedIds(pages, [first] + rest) == PageIds(pages, first) + LoadedIds(pages, rest)
    decreases |rest|
  {
    if rest == [] {
      LoadedSnoc(pages, [], first);
      assert [] + [first] == [first] + rest;
    } else {
      var init, last := rest[..|rest| - 1], rest[|rest| - 1];
      assert rest == init + [last] && [first] + rest == ([first] + init) + [last];
      LoadedCons(pages, first, init);
      LoadedSnoc(pages, [first] + init, last);
      LoadedSnoc(pages, init, last);
    }
  }

  /** Dropping the first page moves the start by its length. */
  lemma {:induction false} DropFirst(pages: Pages, first: PageKey, rest: seq<PageKey>, start: nat)
    requires first !in rest && Placed(pages, [first] + rest, start)
    ensures LoadedIds(pages - {first}, rest) == LoadedIds(pages, rest)
    ensures Placed(pages - {first}, rest, start + |PageIds(pages, first)|)
    decreases |rest|
  {
    if rest != [] {
      var init := rest[..|rest| - 1];
      assert ([first] + rest)[..|rest|] == [first] + init;
      DropFirst(pages, first, init, start);
      LoadedCons(pages, first, init);
      assert rest[|rest| - 1] != first;
    }
  }

  lemma {:induction false} KeysMeans(pages: Pages, loaded: seq<PageKey>)
    requires KeysOk(pages, loaded)
    ensures (forall k :: k in loaded <==> k in pages) && Distinct(loaded)
    decreases |loaded|
  {
    if loaded != [] {
      var first, rest := loaded[0], loaded[1..];
      KeysMeans(pages - {first}, rest);
      assert loaded == [first] + rest;
    }
  }

  lemma {:induction false} KeysRest(pages: Pages, first: PageKey, rest: seq<PageKey>)
    requires KeysOk(pages, [first] + rest)
    ensures first !in rest && KeysOk(pages - {first}, rest)
  {
    assert ([first] + rest)[1..] == rest;
    KeysMeans(pages - {first}, rest);
  }

  lemma {:induction false} KeysCons(pages: Pages, first: PageKey, rest: seq<PageKey>)
    requires first in pages && KeysOk(pages - {first}, rest)
    ensures KeysOk(pages, [first] + rest)
  {
    assert ([first] + rest)[1..] == rest;
  }

  lemma {:induction false} KeysAppend(pages: Pages, loaded: seq<PageKey>, key: PageKey, ids: seq<ItemId>)
    requires KeysOk(pages, loaded)
    ensures KeysOk(pages[key := ids], Without(loaded, key) + [key])
    decreases |loaded|
  {
    if loaded == [] {
      assert pages[key := ids] - {key} == map[];
      KeysCons(pages[key := ids], key, []);
      assert Without(loaded, key) + [key] == [key] + [];
    } else {
      var first, rest := loaded[0], loaded[1..];
      KeysAppend(pages - {first}, rest, key, ids);
      if first == key {
        assert (pages - {first})[key := ids] == pages[key := ids];
      } else {
        assert (pages - {first})[key := ids] == pages[key := ids] - {first};
        KeysCons(pages[key := ids], first, Without(rest, key) + [key]);
        assert Without(loaded, key) + [key] == [first] + (Without(rest, key) + [key]);
      }
    }
  }

  /** The window without its first page. */
  function Shifted(w: Window): Window
    requires w.loaded != []
  {
    Window(w.pages - {w.loaded[0]}, w.loaded[1..], w.start + |PageIds(w.pages, w.loaded[0])|)
  }

  lemma ShiftedFrame(w: Window)
    requires FrameOk(w) && w.loaded != []
    ensures FrameOk(Shifted(w))
  {
    var first, rest := w.loaded[0], w.loaded[1..];
    assert w.loaded == [first] + rest;
    KeysRest(w.pages, first, rest);
    DropFirst(w.pages, first, rest, w.start);
  }

  lemma ShiftedIds(w: Window)
    requires FrameOk(w) && w.loaded != []
    ensures Shown(w) == PageIds(w.pages, w.loaded[0]) + Shown(Shifted(w))
  {
    var first, rest := w.loaded[0], w.loaded[1..];
    assert w.loaded == [first] + rest;
    KeysRest(w.pages, first, rest);
    LoadedCons(w.pages, first, rest);
    DropFirst(w.pages, first, rest, w.start);
  }

  lemma {:induction false} ShownIsSuffix(fetched: seq<ItemId>, start: nat, ids: seq<ItemId>, before: seq<ItemId>, gone: seq<ItemId>, shown: seq<ItemId>)
    requires start <= |fetched| && before == fetched[start..] && before + ids == gone + shown
    ensures start + |gone| <= |fetched + ids| && shown == (fetched + ids)[start + |gone|..]
  {
    assert |before| + |ids| == |gone| + |shown|;
    assert before + ids == (fetched + ids)[start..];
    assert shown == (gone + shown)[|gone|..];
  }

  lemma {:induction false} EvictFrame(w: Window)
    requires FrameOk(w)
    ensures FrameOk(Evict(w)) && |Evict(w).loaded| <= PAGE_WINDOW
    decreases |w.loaded|
  {
    if |w.loaded| > PAGE_WINDOW {
      ShiftedFrame(w);
      EvictFrame(Shifted(w));
    }
  }

  lemma {:induction false} Regroup(all: seq<ItemId>, a: seq<ItemId>, rest: seq<ItemId>, b: seq<ItemId>, c: seq<ItemId>)
    requires all == a + rest && rest == b + c
    ensures all == (a + b) + c
  {
  }

  lemma {:induction false} EvictIds(w: Window) returns (gone: seq<ItemId>)
    requires FrameOk(w)
    ensures Shown(w) == gone + Shown(Evict(w)) && Evict(w).start == w.start + |gone|
    decreases |w.loaded|
  {
    if |w.loaded| <= PAGE_WINDOW {
      gone := [];
    } else {
      ShiftedFrame(w);
      ShiftedIds(w);
      var next := Shifted(w);
      assert Evict(w) == Evict(next);
      var more := EvictIds(next);
      var first := PageIds(w.pages, w.loaded[0]);
      Regroup(Shown(w), first, Shown(next), more, Shown(Evict(next)));
      gone := first + more;
    }
  }

  lemma {:induction false} AppendedPages(pages: Pages, loaded: seq<PageKey>, start: nat, key: PageKey, ids: seq<ItemId>)
    requires Placed(pages, loaded, start) && key.WindowPage? && key.offset == start + |LoadedIds(pages, loaded)|
    ensures Placed(pages[key := ids], Without(loaded, key) + [key], start)
    ensures LoadedIds(pages[key := ids], Without(loaded, key) + [key]) == LoadedIds(pages, loaded) + ids
  {
    WriteNextPage(pages, loaded, start, key, ids);
    PlacedSnoc(pages[key := ids], Without(loaded, key), key, start);
    LoadedSnoc(pages[key := ids], Without(loaded, key), key);
  }

  lemma {:induction false} AppendedShows(s: State, ids: seq<ItemId>)
    requires Placed(s.pages, s.loaded, s.start)
    ensures var w := Appended(s, ids);
            Placed(w.pages, w.loaded, w.start) && Shown(w) == LoadedIds(s.pages, s.loaded) + ids
  {
    AppendedPages(s.pages, s.loaded, s.start, WindowPage(s.filter, s.start + |LoadedIds(s.pages, s.loaded)|), ids);
  }

  lemma {:induction false} AppendedKeys(s: State, ids: seq<ItemId>)
    requires KeysOk(s.pages, s.loaded)
    ensures KeysOk(Appended(s, ids).pages, Appended(s, ids).loaded)
  {
    KeysAppend(s.pages, s.loaded, WindowPage(s.filter, s.start + |LoadedIds(s.pages, s.loaded)|), ids);
  }

  lemma {:induction false} AppendedFrame(s: State, ids: seq<ItemId>)
    requires FrameOk(Window(s.pages, s.loaded, s.start))
    ensures FrameOk(Appended(s, ids)) && Shown(Appended(s, ids)) == LoadedIds(s.pages, s.loaded) + ids
  {
    AppendedShows(s, ids);
    AppendedKeys(s, ids);
  }

  lemma {:induction false} ExtendedOk(s: State, ids: seq<ItemId>) returns (gone: seq<ItemId>)
    requires FrameOk(Window(s.pages, s.loaded, s.start))
    ensures FrameOk(Extended(s, ids)) && |Extended(s, ids).loaded| <= PAGE_WINDOW
    ensures LoadedIds(s.pages, s.loaded) + ids == gone + Shown(Extended(s, ids))
    ensures Extended(s, ids).start == s.start + |gone|
  {
    AppendedFrame(s, ids);
    gone := EvictAppended(Appended(s, ids));
  }

  lemma {:induction false} EvictAppended(w: Window) returns (gone: seq<ItemId>)
    requires FrameOk(w)
    ensures FrameOk(Evict(w)) && |Evict(w).loaded| <= PAGE_WINDOW
    ensures Shown(w) == gone + Shown(Evict(w)) && Evict(w).start == w.start + |gone|
  {
    EvictFrame(w);
    gone := EvictIds(w);
  }

  lemma {:induction false} MergePageHas(base: map<ItemId, Item>, stored: map<ItemId, Item>, items: seq<Item>, id: ItemId)
    requires Filed(base) && Filed(stored)
    ensures Filed(MergePage(base, stored, items))
    ensures id in MergePage(base, stored, items) <==> id in base || id in Ids(items)
    ensures id in MergePage(base, stored, items) && id in stored && (id in base ==> base[id] == stored[id]) ==>
              NotOlder(stored[id], MergePage(base, stored, items)[id])
    decreases |items|
  {
    if items != [] {
      var n := |items| - 1;
      MergePageHas(base, stored, items[..n], id);
      assert Ids(items) == Ids(items[..n]) + [items[n].id];
    }
  }

  /** The same item, or one that the revision check lets through. */
  predicate NotOlder(current: Item, next: Item) { next == current || AcceptsRevision(current, next) }

  // ---- steps ---------------------------------------------------------------------------------

  lemma {:induction false} FirstFrame(key: PageKey, ids: seq<ItemId>)
    requires key.WindowPage? && key.offset == 0
    ensures FrameOk(Window(map[key := ids], [key], 0)) && LoadedIds(map[key := ids], [key]) == ids
  {
    var pages: Pages := map[key := ids];
    assert [key][..0] == [] && [key][1..] == [];
    assert pages - {key} == map[];
    assert Placed(pages, [], 0) && LoadedIds(pages, []) == [];
    assert Placed(pages, [key], 0);
  }

  lemma AttachWindowOk(s: State, projectKey: string, overview: Overview, page: Page, epoch: Option<nat>)
    requires Filed(s.itemById) && Accepts(s, projectKey, epoch) && Distinct(Ids(page.items))
    requires overview.sessionId == page.sessionId && overview.semanticRevision == page.snapshotRevision
    ensures WindowOk(AttachWindow(s, projectKey, overview, page, epoch), Ids(page.items))
  {
    var s' := AttachWindow(s, projectKey, overview, page, epoch);
    var ids := Ids(page.items);
    FirstFrame(WindowPage(s.filter, 0), ids);
    ByIdHas(page.items);
    assert ids[0..] == ids;
    LookUpAll(s'.itemById, page.items);
  }

  lemma {:induction false} LookUpAll(m: map<ItemId, Item>, items: seq<Item>)
    requires Distinct(Ids(items)) && forall id :: id in ById(items) ==> id in m && m[id] == ById(items)[id]
    ensures ItemsOf(m, Ids(items)) == items
  {
    forall i | 0 <= i < |items| ensures items[i].id in m && m[items[i].id] == items[i] { ByIdDistinct(items, i); }
    LookUpEach(m, items);
  }

  lemma {:induction false} LookUpEach(m: map<ItemId, Item>, items: seq<Item>)
    requires forall i :: 0 <= i < |items| ==> items[i].id in m && m[items[i].id] == items[i]
    ensures ItemsOf(m, Ids(items)) == items
    decreases |items|
  {
    if items != [] {
      var n := |items| - 1;
      assert Ids(items)[..n] == Ids(items[..n]) && Ids(items)[n] == items[n].id;
      LookUpEach(m, items[..n]);
      assert items == items[..n] + [items[n]];
    }
  }

  lemma AppendStoresShown(s: State, projectKey: string, page: Page, epoch: Option<nat>, id: ItemId)
    requires Filed(s.itemById) && PageFits(s, projectKey, page, epoch)
    requires id in LoadedIds(Extended(s, Ids(page.items)).pages, Extended(s, Ids(page.items)).loaded)
    requires id in s.itemById || id in Ids(page.items)
    ensures id in AppendPage(s, projectKey, page, epoch).itemById
  {
    var w := Extended(s, Ids(page.items));
    MergePageHas(Retained(s.itemById, LoadedIds(w.pages, w.loaded)), s.itemById, page.items, id);
  }

  lemma AppendFiles(s: State, projectKey: string, page: Page, epoch: Option<nat>)
    requires Filed(s.itemById)
    ensures Filed(AppendPage(s, projectKey, page, epoch).itemById)
  {
    var w := Extended(s, Ids(page.items));
    MergePageHas(Retained(s.itemById, LoadedIds(w.pages, w.loaded)), s.itemById, page.items, "");
  }

  lemma {:induction false} AppendStoresAllShown(s: State, projectKey: string, page: Page, epoch: Option<nat>, before: seq<ItemId>, gone: seq<ItemId>)
    requires Filed(s.itemById) && PageFits(s, projectKey, page, epoch)
    requires forall id :: id in before ==> id in s.itemById
    requires before + Ids(page.items) == gone + Shown(Extended(s, Ids(page.items)))
    ensures forall id :: id in Shown(Extended(s, Ids(page.items))) ==> id in AppendPage(s, projectKey, page, epoch).itemById
  {
    var ids, shown := Ids(page.items), Shown(Extended(s, Ids(page.items)));
    forall id | id in shown ensures id in AppendPage(s, projectKey, page, epoch).itemById {
      assert id in gone + shown;
      assert id in before + ids;
      AppendStoresShown(s, projectKey, page, epoch, id);
    }
  }

  lemma {:induction false} AppendWindowOk(s: State, fetched: seq<ItemId>, projectKey: string, page: Page, epoch: Option<nat>)
    requires WindowOk(s, fetched) && PageFits(s, projectKey, page, epoch)
    ensures WindowOk(AppendPage(s, projectKey, page, epoch), fetched + Ids(page.items))
  {
    var ids, before := Ids(page.items), LoadedIds(s.pages, s.loaded);
    var gone := ExtendedOk(s, ids);
    ShownIsSuffix(fetched, s.start, ids, before, gone, Shown(Extended(s, ids)));
    AppendFiles(s, projectKey, page, epoch);
    AppendStoresAllShown(s, projectKey, page, epoch, before, gone);
  }

  /** A stored item that is still stored after a page was appended is the same one or
      has not gone back: where both carry a revision, the new one is larger. */
  lemma AppendNeverGoesBack(s: State, projectKey: string, page: Page, epoch: Option<nat>, id: ItemId)
    requires Filed(s.itemById) && id in s.itemById && id in AppendPage(s, projectKey, page, epoch).itemById
    ensures NotOlder(s.itemById[id], AppendPage(s, projectKey, page, epoch).itemById[id])
  {
    if PageFits(s, projectKey, page, epoch) {
      var w := Extended(s, Ids(page.items));
      MergePageHas(Retained(s.itemById, LoadedIds(w.pages, w.loaded)), s.itemById, page.items, id);
    }
  }

  /** No item of the patch enters or leaves the current filter. */
  predicate Quiet(s: State, items: seq<Item>) {
    items == [] ||
    var init, last := items[..|items| - 1], items[|items| - 1];
    && Quiet(s, init)
    && (Takes(PatchAll(s, init), last) ==>
          Matches(PatchAll(s, init).itemById[last.id], s.filter) == Matches(last, s.filter))
  }

  lemma {:induction false} QuietPatchKeepsPages(s: State, items: seq<Item>)
    requires Quiet(s, items) && Filed(s.itemById)
    ensures var t := PatchAll(s, items);
            && t.pages == s.pages && t.loaded == s.loaded && t.start == s.start && t.filter == s.filter && t.session == s.session
            && t.itemById.Keys == s.itemById.Keys && Filed(t.itemById) && (!Changes(s, items) ==> t == s)
    decreases |items|
  {
    if items != [] { QuietPatchKeepsPages(s, items[..|items| - 1]); }
  }

  lemma {:induction false} SubstituteIsLookUp(m: map<ItemId, Item>, ids: seq<ItemId>, item: Item)
    requires Filed(m) && item.id in m && forall i :: 0 <= i < |ids| ==> ids[i] in m
    ensures |ItemsOf(m, ids)| == |ids|
    ensures Substitute(ItemsOf(m, ids), item) == ItemsOf(m[item.id := item], ids)
    decreases |ids|
  {
    if ids != [] {
      var n := |ids| - 1;
      SubstituteIsLookUp(m, ids[..n], item);
      assert ids[n] in m;
      assert ItemsOf(m, ids) == ItemsOf(m, ids[..n]) + [m[ids[n]]];
    }
  }

  datatype Step = Append(projectKey: string, page: Page, epoch: Option<nat>) | Change(edit: A.Edit)

  function Next(s: State, step: Step): State {
    match step
    case Append(key, page, epoch) => AppendPage(s, key, page, epoch)
    case Change(edit) => A.Apply(s, edit)
  }

  function RunSteps(s: State, steps: seq<Step>): State {
    if steps == [] then s else Next(RunSteps(s, steps[..|steps| - 1]), steps[|steps| - 1])
  }

  /** Everything fetched: each page that is let in adds its ids. */
  function Fetched(s: State, first: seq<ItemId>, steps: seq<Step>): seq<ItemId> {
    if steps == [] then first
    else
      var init, last := steps[..|steps| - 1], steps[|steps| - 1];
      Fetched(s, first, init)
      + (if last.Append? && PageFits(RunSteps(s, init), last.projectKey, last.page, last.epoch) then Ids(last.page.items) else [])
  }

  /** The run has no change of filter membership. */
  predicate Undisturbed(s: State, steps: seq<Step>) {
    steps == [] ||
    var init, last := steps[..|steps| - 1], steps[|steps| - 1];
    && Undisturbed(s, init)
    && (last.Change? && last.edit.Patch? ==> Quiet(RunSteps(s, init), last.edit.items))
  }

  lemma {:induction false} EditKeepsWindow(s: State, fetched: seq<ItemId>, edit: A.Edit)
    requires WindowOk(s, fetched) && (edit.Patch? ==> Quiet(s, edit.items))
    ensures WindowOk(A.Apply(s, edit), fetched)
  {
    match edit
    case Patch(_, items, _) => QuietPatchKeepsPages(s, items);
    case ReplaceLocal(_, item, _) =>
      if A.Apply(s, edit) != s { SubstituteIsLookUp(s.itemById, LoadedIds(s.pages, s.loaded), item); }
    case SetFilter(_) =>
    case Select(_) =>
  }

  lemma {:induction false} RunKeepsWindow(s: State, first: seq<ItemId>, steps: seq<Step>)
    requires WindowOk(s, first) && Undisturbed(s, steps)
    ensures WindowOk(RunSteps(s, steps), Fetched(s, first, steps))
    decreases |steps|
  {
    if steps != [] {
      var init, last := steps[..|steps| - 1], steps[|steps| - 1];
      RunKeepsWindow(s, first, init);
      var mid, fetched := RunSteps(s, init), Fetched(s, first, init);
      match last
      case Append(key, page, epoch) =>
        if PageFits(mid, key, page, epoch) { AppendWindowOk(mid, fetched, key, page, epoch); } else { assert fetched + [] == fetched; }
      case Change(edit) =>
        EditKeepsWindow(mid, fetched, edit);
        assert fetched + [] == fetched;
    }
  }

  /** After `attachSessionWindow`, any run of appended pages, empty ones included, and
      of edits that change no filter membership, even across changes of the filter,
      shows the fetched ids from `start` on, in at most three pages. */
  lemma {:induction false} WindowIsFetchedSuffix(s: State, projectKey: string, overview: Overview, page: Page, epoch: Option<nat>, steps: seq<Step>)
    requires Filed(s.itemById) && Accepts(s, projectKey, epoch) && Distinct(Ids(page.items))
    requires overview.sessionId == page.sessionId && overview.semanticRevision == page.snapshotRevision
    requires Undisturbed(AttachWindow(s, projectKey, overview, page, epoch), steps)
    ensures var attached := AttachWindow(s, projectKey, overview, page, epoch);
            WindowOk(RunSteps(attached, steps), Fetched(attached, Ids(page.items), steps))
  {
    AttachWindowOk(s, projectKey, overview, page, epoch);
    RunKeepsWindow(AttachWindow(s, projectKey, overview, page, epoch), Ids(page.items), steps);
  }

  // ---- revisions over runs ---------------------------------------------------------------

  /** Both carry a revision and it has not become smaller. */
  predicate Advances(current: Item, next: Item) {
    current.revision.Some? && next.revision.Some? && next.revision.value >= current.revision.value
  }

  /** A patch item takes the place of the stored one without carrying a revision. */
  predicate PatchDisplaces(items: seq<Item>, id: ItemId) {
    items != []
    && (PatchDisplaces(items[..|items| - 1], id) || (items[|items| - 1].id == id && items[|items| - 1].revision.None?))
  }

  /** Each item of the patch leaves the stored one or moves it forward. */
  predicate PatchAdvances(s: State, items: seq<Item>, id: ItemId) {
    items == [] ||
    var before, after := PatchAll(s, items[..|items| - 1]).itemById, PatchAll(s, items).itemById;
    && PatchAdvances(s, items[..|items| - 1], id)
    && id in before && id in after && Advances(before[id], after[id])
  }

  lemma {:induction false} PatchAdvancesIff(s: State, items: seq<Item>, id: ItemId)
    requires Filed(s.itemById) && id in s.itemById && s.itemById[id].revision.Some?
    ensures id in PatchAll(s, items).itemById && Filed(PatchAll(s, items).itemById)
    ensures PatchAdvances(s, items, id) <==> !PatchDisplaces(items, id)
    ensures !PatchDisplaces(items, id) ==> Advances(s.itemById[id], PatchAll(s, items).itemById[id])
    decreases |items|
  {
    if items != [] { PatchAdvancesIff(s, items[..|items| - 1], id); }
  }

  /** The step puts an item without a revision, or locally one with a smaller one, in
      the place of the stored item. */
  predicate Displaces(s: State, step: Step, id: ItemId) {
    id in s.itemById &&
    match step
    case Append(key, page, epoch) =>
      PageFits(s, key, page, epoch) && id in ById(page.items) && ById(page.items)[id].revision.None?
    case Change(edit) =>
      match edit
      case Patch(key, items, epoch) => Accepts(s, key, epoch) && s.session.Some? && PatchDisplaces(items, id)
      case ReplaceLocal(key, item, epoch) =>
        Accepts(s, key, epoch) && s.session.Some? && item.id == id && !Advances(s.itemById[id], item)
      case SetFilter(_) => false
      case Select(_) => false
  }

  /** The step leaves the stored item or moves it forward, at each item of a patch. */
  predicate StepAdvances(s: State, step: Step, id: ItemId) {
    id in s.itemById && id in Next(s, step).itemById &&
    if step.Change? && step.edit.Patch? && Accepts(s, step.edit.projectKey, step.edit.epoch) && s.session.Some?
    then PatchAdvances(s, step.edit.items, id)
    else Advances(s.itemById[id], Next(s, step).itemById[id])
  }

  lemma {:induction false} MergePageTakesLast(base: map<ItemId, Item>, stored: map<ItemId, Item>, items: seq<Item>, id: ItemId)
    ensures id in MergePage(base, stored, items) <==> id in base || id in ById(items)
    ensures id in ById(items) ==>
              MergePage(base, stored, items)[id] ==
              (if id in stored && !AcceptsRevision(stored[id], ById(items)[id]) then stored[id] else ById(items)[id])
    ensures id !in ById(items) && id in base ==> MergePage(base, stored, items)[id] == base[id]
    decreases |items|
  {
    if items != [] { MergePageTakesLast(base, stored, items[..|items| - 1], id); }
  }

  lemma AppendAdvancesIff(s: State, key: string, page: Page, epoch: Option<nat>, id: ItemId)
    requires id in s.itemById && s.itemById[id].revision.Some? && id in AppendPage(s, key, page, epoch).itemById
    ensures Advances(s.itemById[id], AppendPage(s, key, page, epoch).itemById[id]) <==> !Displaces(s, Append(key, page, epoch), id)
  {
    if PageFits(s, key, page, epoch) {
      var w := Extended(s, Ids(page.items));
      MergePageTakesLast(Retained(s.itemById, LoadedIds(w.pages, w.loaded)), s.itemById, page.items, id);
    }
  }

  lemma {:induction false} UnchangedPatch(s: State, items: seq<Item>)
    requires !Changes(s, items)
    ensures PatchAll(s, items) == s
    decreases |items|
  {
    if items != [] { UnchangedPatch(s, items[..|items| - 1]); }
  }

  lemma EditAdvancesIff(s: State, edit: A.Edit, id: ItemId)
    requires Filed(s.itemById) && id in s.itemById && s.itemById[id].revision.Some?
    ensures id in A.Apply(s, edit).itemById && Filed(A.Apply(s, edit).itemById)
    ensures StepAdvances(s, Change(edit), id) <==> !Displaces(s, Change(edit), id)
    ensures !Displaces(s, Change(edit), id) ==> Advances(s.itemById[id], A.Apply(s, edit).itemById[id])
  {
    if edit.Patch? {
      PatchAdvancesIff(s, edit.items, id);
      if !Changes(s, edit.items) { UnchangedPatch(s, edit.items); }
    }
  }

  lemma StepAdvancesIff(s: State, step: Step, id: ItemId)
    requires Filed(s.itemById) && id in s.itemById && s.itemById[id].revision.Some? && id in Next(s, step).itemById
    ensures Filed(Next(s, step).itemById)
    ensures StepAdvances(s, step, id) <==> !Displaces(s, step, id)
    ensures !Displaces(s, step, id) ==> Advances(s.itemById[id], Next(s, step).itemById[id])
  {
    match step
    case Append(key, page, epoch) =>
      AppendFiles(s, key, page, epoch);
      AppendAdvancesIff(s, key, page, epoch, id);
    case Change(edit) => EditAdvancesIff(s, edit, id);
  }

  /** The item stays stored over the run. */
  predicate StaysStored(s: State, steps: seq<Step>, id: ItemId) {
    id in RunSteps(s, steps).itemById && (steps != [] ==> StaysStored(s, steps[..|steps| - 1], id))
  }

  predicate NeverDisplaced(s: State, steps: seq<Step>, id: ItemId) {
    steps == []
    || (NeverDisplaced(s, steps[..|steps| - 1], id) && !Displaces(RunSteps(s, steps[..|steps| - 1]), steps[|steps| - 1], id))
  }

  predicate AlwaysAdvances(s: State, steps: seq<Step>, id: ItemId) {
    steps == []
    || (AlwaysAdvances(s, steps[..|steps| - 1], id) && StepAdvances(RunSteps(s, steps[..|steps| - 1]), steps[|steps| - 1], id))
  }

  /** Over every run of appended pages, patches and local replacements, for an item that
      carries a revision and stays stored: its revision is kept or grows at every step,
      if and only if nothing puts an item without a revision, or locally one with a
      smaller revision, in its place. */
  lemma {:induction false} RunNeverGoesBack(s: State, steps: seq<Step>, id: ItemId)
    requires Filed(s.itemById) && id in s.itemById && s.itemById[id].revision.Some? && StaysStored(s, steps, id)
    ensures AlwaysAdvances(s, steps, id) <==> NeverDisplaced(s, steps, id)
    ensures NeverDisplaced(s, steps, id) ==>
              Filed(RunSteps(s, steps).itemById) && Advances(s.itemById[id], RunSteps(s, steps).itemById[id])
    decreases |steps|
  {
    if steps != [] {
      var init := steps[..|steps| - 1];
      RunNeverGoesBack(s, init, id);
      if NeverDisplaced(s, init, id) { StepAdvancesIff(RunSteps(s, init), steps[|steps| - 1], id); }
    }
  }

  /** One patch of one item the store knows, without an opposing revision. */
  lemma PatchOneTakes(s: State, key: string, item: Item, epoch: Option<nat>)
    requires Accepts(s, key, epoch) && s.session.Some? && Takes(s, item)
    ensures var s' := PatchItems(s, key, [item], epoch);
            s'.itemById == s.itemById[item.id := item] && s'.session.Some? && Accepts(s', key, epoch)
  {
    assert [item][..0] == [];
    assert PatchAll(s, [item]) == PatchOne(s, item);
    assert Changes(s, [item]);
  }

  /** It happens, to every stored item: a patch without a revision, then an older one,
      and the item is back at the older revision. */
  lemma {:induction false} UnrevisedItemLetsOlderIn(s: State, key: string, epoch: Option<nat>, unrevised: Item, older: Item)
    requires Accepts(s, key, epoch) && s.session.Some? && older.id in s.itemById && unrevised.id == older.id
    requires unrevised.revision.None? && older.revision.Some? && s.itemById[older.id].revision.Some?
    requires older.revision.value < s.itemById[older.id].revision.value
    ensures var steps := [Change(A.Patch(key, [unrevised], epoch)), Change(A.Patch(key, [older], epoch))];
            older.id in RunSteps(s, steps).itemById && RunSteps(s, steps).itemById[older.id] == older
  {
    var one, two := Change(A.Patch(key, [unrevised], epoch)), Change(A.Patch(key, [older], epoch));
    assert [one][..0] == [] && [one, two][..1] == [one];
    assert RunSteps(s, [one]) == PatchItems(s, key, [unrevised], epoch);
    PatchOneTakes(s, key, unrevised, epoch);
    PatchOneTakes(RunSteps(s, [one]), key, older, epoch);
  }
}
