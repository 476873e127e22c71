/** What the lists and counters of the task store show, by the fields of the tasks
    (`src/stores/taskStore.ts`). */
module TaskLists {
  import opened Common
  import opened TaskSnapshot
  import opened TaskIndex

  /** The task is listed under the key: its own project, or the global one if it has none. */
  predicate ListedUnder(t: Task, p: string) {
    t.projectId == Some(p) || (t.projectId == None && p == "__global__")
  }

  /** In an agreeing index, each project lists its tasks, each once, and counts those that
      are queued, running or being cancelled. */
  lemma ListsMean(ix: Index, p: string)
    requires Agrees(ix)
    ensures var ids := if p in ix.ids then ix.ids[p] else [];
            var running := if p in ix.running then ix.running[p] else 0;
            && Distinct(ids)
            && (forall id :: id in ids <==> id in ix.byId && ListedUnder(ix.byId[id], p))
            && running == |set id | id in ix.byId && ListedUnder(ix.byId[id], p) && ix.byId[id].status in {Queued, Running, Cancelling}|
  {
    assert AgreesAt(ix, p);
    assert forall id :: id in IdsOf(ix.ids, p) <==> id in Elements(IdsOf(ix.ids, p));
    assert RunningOf(ix.byId, p)
        == set id | id in ix.byId && ListedUnder(ix.byId[id], p) && ix.byId[id].status in {Queued, Running, Cancelling};
  }

  /** A snapshot of a new task is stored and put at the end of its project's list. */
  lemma NewTaskIsAppended(ix: Index, task: Task, p: string)
    requires Agrees(ix) && task.id !in ix.byId && ListedUnder(task, p)
    ensures var ix' := MergeOne(ix, task);
            && ix'.byId == ix.byId[task.id := task]
            && IdsOf(ix'.ids, p) == IdsOf(ix.ids, p) + [task.id]
  {
    ListsMean(ix, p);
  }

  /** A change of a stored task that stays in its project: a change confined to progress
      and time keeps the list as it is, any other one moves the task to its end. */
  lemma ChangedTaskMovesLast(ix: Index, task: Task, p: string)
    requires Agrees(ix) && task.id in ix.byId && ListedUnder(ix.byId[task.id], p) && ListedUnder(task, p)
    ensures var was, ix' := ix.byId[task.id], MergeOne(ix, task);
            var m := MergeTaskSnapshot(Some(was), task).task;
            && ix'.byId == ix.byId[task.id := m]
            && IdsOf(ix'.ids, p) == if was.(progress := m.progress, updatedAt := m.updatedAt) == m then IdsOf(ix.ids, p)
                                    else Without(IdsOf(ix.ids, p), task.id) + [task.id]
  {
    assert AgreesAt(ix, p);
    var was := ix.byId[task.id];
    MergeMeans(was, task);
    var m := MergeTaskSnapshot(Some(was), task);
    if m.changed {
      ReindexSameProject(ix.ids, task.id, was, m.task, p);
    } else {
      assert ix.byId[task.id := m.task] == ix.byId;
    }
  }

  lemma {:induction false} ReindexSameProject(ids: map<string, seq<string>>, id: string, was: Task, m: Task, p: string)
    requires ProjectKey(was) == p && ProjectKey(m) == p && was != m && Distinct(IdsOf(ids, p))
    ensures IdsOf(ReindexIds(ids, id, Some(was), m), p)
         == if was.(progress := m.progress, updatedAt := m.updatedAt) == m then IdsOf(ids, p) else Without(IdsOf(ids, p), id) + [id]
  {
    var current := IdsOf(ids, p);
    if current != [] && current[|current| - 1] == id {
      var init := current[..|current| - 1];
      assert current == init + [id];
      assert id !in init;
      WithoutLast(init, id);
    }
  }

  lemma {:induction false} WithoutLast(init: seq<string>, x: string)
    requires x !in init
    ensures Without(init + [x], x) == init
  {
    if init == [] {
      assert [x][1..] == [];
    } else {
      assert (init + [x])[1..] == init[1..] + [x];
      WithoutLast(init[1..], x);
    }
  }

  /** A task that goes to another project leaves the one list and is appended to the
      other. */
  lemma MovedTaskChangesLists(ix: Index, task: Task, p: string, q: string)
    requires Agrees(ix) && task.id in ix.byId && !Outdated(ix.byId[task.id], task)
    requires ListedUnder(ix.byId[task.id], p) && ListedUnder(task, q) && p != q && p != ""
    ensures var ix' := MergeOne(ix, task);
            && IdsOf(ix'.ids, p) == Without(IdsOf(ix.ids, p), task.id)
            && IdsOf(ix'.ids, q) == IdsOf(ix.ids, q) + [task.id]
  {
    ListsMean(ix, p);
    ListsMean(ix, q);
    MergeMeans(ix.byId[task.id], task);
  }

  /** An empty snapshot is not taken over while an unfinished task is shown. Otherwise the
      list becomes the incoming one, each task merged into its shown version, if there is
      one. */
  lemma {:induction false} ReplaceSnapshotMeans(shown: seq<Task>, incoming: seq<Task>, i: nat, j: nat)
    requires Distinct(TaskIds(shown)) && i < |incoming| && j < |shown|
    ensures var r := ReplaceSnapshot(shown, incoming);
            && |r| == |incoming|
            && (shown[j].id == incoming[i].id ==> r[i] == MergeTaskSnapshot(Some(shown[j]), incoming[i]).task)
            && (incoming[i].id !in TaskIds(shown) ==> r[i] == incoming[i])
    ensures ReplaceSnapshot(shown, []) ==
            if exists t :: t in shown && t.status in {Queued, Running, WaitingForConfirmation, Cancelling} then shown else []
  {
    LastOfMeans(shown, incoming[i].id, j);
    if exists t :: t in shown && !IsTerminal(t.status) {
      var t :| t in shown && !IsTerminal(t.status);
      assert t.status in {Queued, Running, WaitingForConfirmation, Cancelling};
    }
  }

  lemma {:induction false} LastOfMeans(shown: seq<Task>, id: string, j: nat)
    requires Distinct(TaskIds(shown)) && j < |shown|
    ensures shown[j].id == id ==> LastOf(shown, id) == Some(shown[j])
    ensures id !in TaskIds(shown) ==> LastOf(shown, id) == None
    decreases |shown|
  {
    var n := |shown| - 1;
    var ids := TaskIds(shown);
    assert TaskIds(shown[..n]) == ids[..n] && ids[n] == shown[n].id && ids[j] == shown[j].id;
    if j < n { LastOfMeans(shown[..n], id, j); }
    else if n > 0 { LastOfMeans(shown[..n], id, 0); }
  }

  /** The ids of the active project are taken from a snapshot in its order. */
  lemma {:induction false} SelectKeepsOrder(a: seq<Task>, b: seq<Task>, active: Option<string>)
    ensures SelectIds(a + b, active) == SelectIds(a, active) + SelectIds(b, active)
    ensures CountSelected(a + b, active) == CountSelected(a, active) + CountSelected(b, active)
    decreases |b|
  {
    if b == [] {
      assert a + b == a;
    } else {
      assert (a + b)[..|a + b| - 1] == a + b[..|b| - 1];
      SelectKeepsOrder(a, b[..|b| - 1], active);
    }
  }

  lemma SelectOne(t: Task, active: Option<string>)
    ensures SelectIds([t], active) == if t.projectId == active then [t.id] else []
    ensures CountSelected([t], active) == if t.projectId == active && t.status in {Queued, Running, Cancelling} then 1 else 0
  {
    assert [t][..0] == [];
  }
}
