/** Normalised task facts with their per-project indexes (`src/stores/taskStore.ts`).

    The store keeps a task map, an ordered id list per project and a running
    counter per project, all updated incrementally. The module proves that the
    lists and counters always agree with the map, and exactly when they do not. */
module TaskIndex {
  import opened Common
  import opened TaskSnapshot

  const GLOBAL_TASK_PROJECT := "__global__"

  function ProjectKey(t: Task): string {
    if t.projectId.Some? then t.projectId.value else GLOBAL_TASK_PROJECT
  }

  datatype Index = Index(
    byId: map<string, Task>,
    ids: map<string, seq<string>>,
    running: map<string, nat>)

  function IdsOf(ids: map<string, seq<string>>, p: string): seq<string> {
    if p in ids then ids[p] else []
  }

  function CountOf(running: map<string, nat>, p: string): nat {
    if p in running then running[p] else 0
  }

  function Stored(byId: map<string, Task>, id: string): Option<Task> {
    if id in byId then Some(byId[id]) else None
  }

  /** `(taskIdsByProject[...])` after a changed merge. */
  function ReindexIds(ids: map<string, seq<string>>, id: string, previous: Option<Task>, merged: Task): map<string, seq<string>> {
    var next := ProjectKey(merged);
    if previous.None? || ProjectKey(previous.value) != next then
      // An empty project id is falsy, so its list is left as it is.
      var cleared := if previous.Some? && ProjectKey(previous.value) != ""
                     then ids[ProjectKey(previous.value) := Without(IdsOf(ids, ProjectKey(previous.value)), id)]
                     else ids;
      if id in IdsOf(cleared, next) then cleared else cleared[next := IdsOf(cleared, next) + [id]]
    else if !IsProgressOnly(previous.value, merged) then
      var current := IdsOf(ids, next);
      ids[next := if current != [] && current[|current| - 1] == id then current else Without(current, id) + [id]]
    else ids
  }

  /** `runningCountByProject` after a changed merge, with the clamp at zero. */
  function Recount(running: map<string, nat>, previous: Option<Task>, merged: Task): map<string, nat> {
    var next := ProjectKey(merged);
    var wasRunning := previous.Some? && IsRunning(previous.value.status);
    var nowRunning := IsRunning(merged.status);
    var moved := previous.None? || ProjectKey(previous.value) != next;
    if (if moved then wasRunning || nowRunning else wasRunning != nowRunning) then
      var lowered := if previous.Some? && ProjectKey(previous.value) != "" && wasRunning
                     then running[ProjectKey(previous.value) := ClampedPred(CountOf(running, ProjectKey(previous.value)))]
                     else running;
      if nowRunning then lowered[next := CountOf(lowered, next) + 1] else lowered
    else running
  }

  function ClampedPred(n: nat): nat { if n == 0 then 0 else n - 1 }

  function MergeOne(ix: Index, task: Task): Index {
    var previous := Stored(ix.byId, task.id);
    var merged := MergeTaskSnapshot(previous, task);
    if !merged.changed then ix
    else Index(ix.byId[task.id := merged.task],
               ReindexIds(ix.ids, task.id, previous, merged.task),
               Recount(ix.running, previous, merged.task))
  }

  function MergeAll(ix: Index, tasks: seq<Task>): Index {
    if tasks == [] then ix
    else MergeOne(MergeAll(ix, tasks[..|tasks| - 1]), tasks[|tasks| - 1])
  }

  // ---- agreement ------------------------------------------------------------

  function TasksOf(byId: map<string, Task>, p: string): set<string> {
    set id | id in byId && ProjectKey(byId[id]) == p
  }

  function RunningOf(byId: map<string, Task>, p: string): set<string> {
    set id | id in byId && ProjectKey(byId[id]) == p && IsRunning(byId[id].status)
  }

  ghost predicate AgreesAt(ix: Index, p: string) {
    && Distinct(IdsOf(ix.ids, p))
    && Elements(IdsOf(ix.ids, p)) == TasksOf(ix.byId, p)
    && CountOf(ix.running, p) == |RunningOf(ix.byId, p)|
  }

  /** The lists and counters say what a recomputation from the map would say. */
  ghost predicate Agrees(ix: Index) {
    && (forall id :: id in ix.byId ==> ix.byId[id].id == id)
    && (forall p :: AgreesAt(ix, p))
  }

  /** The snapshot takes a stored task of the project with the empty id out of
      that project, or stops it from running there. */
  predicate LosesUnnamedProject(ix: Index, task: Task) {
    && task.id in ix.byId
    && ProjectKey(ix.byId[task.id]) == ""
    && !IsStale(ix.byId[task.id], task)
    && (ProjectKey(task) != "" || (IsRunning(ix.byId[task.id].status) && !IsRunning(task.status)))
  }

  lemma MergedShape(previous: Option<Task>, task: Task)
    requires previous.Some? ==> previous.value.id == task.id
    ensures var m := MergeTaskSnapshot(previous, task);
            && m.task.id == task.id
            && (m.changed ==> m.task.projectId == task.projectId && m.task.status == task.status)
            && (previous.Some? && (previous.value.projectId != task.projectId || previous.value.status != task.status)
                ==> (m.changed <==> !IsStale(previous.value, task)))
  {
  }

  // How one changed entry moves between the recomputed sets.
  lemma SetsAfterUpdate(byId: map<string, Task>, id: string, t: Task, p: string)
    ensures TasksOf(byId[id := t], p) == (TasksOf(byId, p) - {id}) + if ProjectKey(t) == p then {id} else {}
    ensures RunningOf(byId[id := t], p)
            == (RunningOf(byId, p) - {id}) + if ProjectKey(t) == p && IsRunning(t.status) then {id} else {}
  {
  }

  // What reindexing does to the list of one project.
  lemma {:induction false} ReindexAt(ids: map<string, seq<string>>, id: string, previous: Option<Task>, merged: Task, p: string)
    requires previous.Some? && ProjectKey(previous.value) == "" ==> ProjectKey(merged) == ""
    ensures var before, after := IdsOf(ids, p), IdsOf(ReindexIds(ids, id, previous, merged), p);
            var was := previous.Some? && ProjectKey(previous.value) == p;
            var now := ProjectKey(merged) == p;
            && (was && !now ==> after == Without(before, id))
            && (!was && now ==> after == if id in before then before else before + [id])
            && (was && now ==> after == before || after == Without(before, id) + [id])
            && (!was && !now ==> after == before)
  {
  }

  lemma {:induction false} ReindexAgrees(ids: map<string, seq<string>>, byId: map<string, Task>, id: string, merged: Task, p: string)
    requires Distinct(IdsOf(ids, p)) && Elements(IdsOf(ids, p)) == TasksOf(byId, p)
    requires id in byId && ProjectKey(byId[id]) == "" ==> ProjectKey(merged) == ""
    ensures var ids' := ReindexIds(ids, id, Stored(byId, id), merged);
            Distinct(IdsOf(ids', p)) && Elements(IdsOf(ids', p)) == TasksOf(byId[id := merged], p)
  {
    var before := IdsOf(ids, p);
    ReindexAt(ids, id, Stored(byId, id), merged, p);
    SetsAfterUpdate(byId, id, merged, p);
    WithoutDistinct(before, id);
    AppendDistinct(Without(before, id), id);
    assert id in before <==> id in TasksOf(byId, p);
    if id !in before {
      AppendDistinct(before, id);
    }
  }

  lemma RecountAt(running: map<string, nat>, previous: Option<Task>, merged: Task, p: string)
    requires previous.Some? && ProjectKey(previous.value) == "" ==>
               ProjectKey(merged) == "" && (IsRunning(previous.value.status) ==> IsRunning(merged.status))
    ensures var before, after := CountOf(running, p), CountOf(Recount(running, previous, merged), p);
            var was := previous.Some? && ProjectKey(previous.value) == p && IsRunning(previous.value.status);
            var now := ProjectKey(merged) == p && IsRunning(merged.status);
            && (was && !now ==> after == ClampedPred(before))
            && (!was && now ==> after == before + 1)
            && (was == now ==> after == before)
  {
  }

  lemma RecountAgrees(running: map<string, nat>, byId: map<string, Task>, id: string, merged: Task, p: string)
    requires CountOf(running, p) == |RunningOf(byId, p)|
    requires id in byId && ProjectKey(byId[id]) == "" ==>
               ProjectKey(merged) == "" && (IsRunning(byId[id].status) ==> IsRunning(merged.status))
    ensures CountOf(Recount(running, Stored(byId, id), merged), p) == |RunningOf(byId[id := merged], p)|
  {
    RecountAt(running, Stored(byId, id), merged, p);
    RunningSizeAfterUpdate(byId, id, merged, p);
  }

  lemma ToggleSize(before: set<string>, id: string, now: bool)
    ensures |(before - {id}) + (if now then {id} else {})| == |before| - (if id in before then 1 else 0) + (if now then 1 else 0)
  {
    if id !in before { assert before - {id} == before; }
  }

  lemma RunningSizeAfterUpdate(byId: map<string, Task>, id: string, t: Task, p: string)
    ensures var was := id in RunningOf(byId, p);
            var now := ProjectKey(t) == p && IsRunning(t.status);
            |RunningOf(byId[id := t], p)|
            == |RunningOf(byId, p)| - (if was then 1 else 0) + (if now then 1 else 0)
  {
    SetsAfterUpdate(byId, id, t, p);
    ToggleSize(RunningOf(byId, p), id, ProjectKey(t) == p && IsRunning(t.status));
  }

  // The failing branches really fail: the list keeps the id, or the counter
  // keeps a task that no longer runs.
  lemma MovingAwayKeepsId(ix: Index, task: Task)
    requires Agrees(ix) && LosesUnnamedProject(ix, task) && ProjectKey(task) != ""
    ensures !AgreesAt(MergeOne(ix, task), "")
  {
    MergedShape(Stored(ix.byId, task.id), task);
    assert AgreesAt(ix, "");
    var ix' := MergeOne(ix, task);
    assert task.id in TasksOf(ix.byId, "");
    assert IdsOf(ix'.ids, "") == IdsOf(ix.ids, "");
    assert task.id in Elements(IdsOf(ix'.ids, "")) && task.id !in TasksOf(ix'.byId, "");
  }

  lemma StoppingKeepsCount(ix: Index, task: Task)
    requires Agrees(ix) && LosesUnnamedProject(ix, task) && ProjectKey(task) == ""
    ensures !AgreesAt(MergeOne(ix, task), "")
  {
    MergedShape(Stored(ix.byId, task.id), task);
    assert AgreesAt(ix, "");
    var ix' := MergeOne(ix, task);
    assert CountOf(ix'.running, "") == CountOf(ix.running, "");
    RunningSizeAfterUpdate(ix.byId, task.id, ix'.byId[task.id], "");
  }

  lemma LosingBreaksAgreement(ix: Index, task: Task)
    requires Agrees(ix) && LosesUnnamedProject(ix, task)
    ensures !AgreesAt(MergeOne(ix, task), "")
  {
    if ProjectKey(task) != "" { MovingAwayKeepsId(ix, task); } else { StoppingKeepsCount(ix, task); }
  }

  /** One merged snapshot keeps lists and counters in agreement with the map,
      unless and only unless it takes a task out of the project with the empty
      id or stops it there: an empty key is falsy in the source. */
  lemma MergeOneAgrees(ix: Index, task: Task)
    requires Agrees(ix)
    ensures Agrees(MergeOne(ix, task)) <==> !LosesUnnamedProject(ix, task)
  {
    if LosesUnnamedProject(ix, task) {
      LosingBreaksAgreement(ix, task);
    } else {
      var previous := Stored(ix.byId, task.id);
      MergedShape(previous, task);
      var merged := MergeTaskSnapshot(previous, task);
      if merged.changed {
        var ix' := MergeOne(ix, task);
        forall p ensures AgreesAt(ix', p) {
          assert AgreesAt(ix, p);
          ReindexAgrees(ix.ids, ix.byId, task.id, merged.task, p);
          RecountAgrees(ix.running, ix.byId, task.id, merged.task, p);
        }
      }
    }
  }

  /** The clamp at zero never acts on an agreeing index. */
  lemma ClampNeverActs(ix: Index, id: string)
    requires Agrees(ix) && id in ix.byId && IsRunning(ix.byId[id].status)
    ensures CountOf(ix.running, ProjectKey(ix.byId[id])) > 0
  {
    var p := ProjectKey(ix.byId[id]);
    assert AgreesAt(ix, p);
    assert id in RunningOf(ix.byId, p);
  }

  // ---- sequences of merges --------------------------------------------------------

  const EMPTY_INDEX := Index(map[], map[], map[])

  /** No merge of the sequence loses a task of the project with the empty id. */
  predicate NeverLoses(ix: Index, tasks: seq<Task>) {
    tasks == [] ||
    var init := tasks[..|tasks| - 1];
    NeverLoses(ix, init) && !LosesUnnamedProject(MergeAll(ix, init), tasks[|tasks| - 1])
  }

  /** The index agrees after every merge of the sequence. */
  ghost predicate AgreesAllAlong(ix: Index, tasks: seq<Task>) {
    Agrees(MergeAll(ix, tasks)) && (tasks != [] ==> AgreesAllAlong(ix, tasks[..|tasks| - 1]))
  }

  lemma {:induction false} MergeAllAgreesIff(ix: Index, tasks: seq<Task>)
    requires Agrees(ix)
    ensures AgreesAllAlong(ix, tasks) <==> NeverLoses(ix, tasks)
    decreases |tasks|
  {
    if tasks != [] {
      var init := tasks[..|tasks| - 1];
      MergeAllAgreesIff(ix, init);
      if NeverLoses(ix, init) { MergeOneAgrees(MergeAll(ix, init), tasks[|tasks| - 1]); }
    }
  }

  predicate NamedProject(t: Task) { ProjectKey(t) != "" }

  ghost predicate AllNamed(ix: Index) {
    forall id :: id in ix.byId ==> ix.byId[id].id == id && NamedProject(ix.byId[id])
  }

  /** Non-empty project ids never lose anything. */
  lemma {:induction false} NamedNeverLoses(ix: Index, tasks: seq<Task>)
    requires AllNamed(ix) && forall i :: 0 <= i < |tasks| ==> NamedProject(tasks[i])
    ensures NeverLoses(ix, tasks) && AllNamed(MergeAll(ix, tasks))
    decreases |tasks|
  {
    if tasks != [] {
      NamedNeverLoses(ix, tasks[..|tasks| - 1]);
      MergedShape(Stored(MergeAll(ix, tasks[..|tasks| - 1]).byId, tasks[|tasks| - 1].id), tasks[|tasks| - 1]);
    }
  }

  lemma {:induction false} MergeAllKeepsTerminal(ix: Index, tasks: seq<Task>, id: string)
    requires id in ix.byId && IsTerminal(ix.byId[id].status)
    ensures id in MergeAll(ix, tasks).byId && IsTerminal(MergeAll(ix, tasks).byId[id].status)
    decreases |tasks|
  {
    if tasks != [] {
      MergeAllKeepsTerminal(ix, tasks[..|tasks| - 1], id);
    }
  }

  // ---- replacing the visible tasks ----------------------------------------------------

  /** `replaceTaskSnapshot`: an empty snapshot does not wipe unfinished tasks; for a
      task shown before, the fresher version is kept. */
  function ReplaceSnapshot(shown: seq<Task>, incoming: seq<Task>): seq<Task> {
    if incoming == [] && (exists t :: t in shown && !IsTerminal(t.status)) then shown
    else seq(|incoming|, i requires 0 <= i < |incoming| => Fresher(shown, incoming[i]))
  }

  /** A snapshot that is taken over keeps its ids in order. */
  lemma {:induction false} ReplaceSnapshotIds(shown: seq<Task>, incoming: seq<Task>)
    requires incoming != []
    ensures TaskIds(ReplaceSnapshot(shown, incoming)) == TaskIds(incoming)
  {
    forall i | 0 <= i < |incoming| ensures ReplaceSnapshot(shown, incoming)[i].id == incoming[i].id {
      LastOfHasId(shown, incoming[i].id);
    }
  }

  lemma {:induction false} LastOfHasId(tasks: seq<Task>, id: string)
    ensures LastOf(tasks, id).Some? ==> LastOf(tasks, id).value.id == id
  {
    if tasks != [] { LastOfHasId(tasks[..|tasks| - 1], id); }
  }

  /** The last task of the id in the list, as `new Map` keeps it. */
  function LastOf(tasks: seq<Task>, id: string): Option<Task> {
    if tasks == [] then None
    else if tasks[|tasks| - 1].id == id then Some(tasks[|tasks| - 1])
    else LastOf(tasks[..|tasks| - 1], id)
  }

  function Fresher(shown: seq<Task>, t: Task): Task {
    if LastOf(shown, t.id).Some? then MergeTaskSnapshot(LastOf(shown, t.id), t).task else t
  }

  /** The ids of the listed tasks of the active project. */
  function SelectIds(tasks: seq<Task>, active: Option<string>): seq<string> {
    if tasks == [] then []
    else
      var last := tasks[|tasks| - 1];
      SelectIds(tasks[..|tasks| - 1], active) + (if last.projectId == active then [last.id] else [])
  }

  function CountSelected(tasks: seq<Task>, active: Option<string>): nat {
    if tasks == [] then 0
    else
      var last := tasks[|tasks| - 1];
      CountSelected(tasks[..|tasks| - 1], active) + (if last.projectId == active && IsRunning(last.status) then 1 else 0)
  }

  function ActiveKey(active: Option<string>): string {
    if active.Some? then active.value else GLOBAL_TASK_PROJECT
  }

  function TaskIds(tasks: seq<Task>): seq<string> { seq(|tasks|, i requires 0 <= i < |tasks| => tasks[i].id) }

  /** Each listed task as it is stored. */
  function Resolve(byId: map<string, Task>, tasks: seq<Task>): seq<Task> {
    seq(|tasks|, i requires 0 <= i < |tasks| => if tasks[i].id in byId then byId[tasks[i].id] else tasks[i])
  }

  /** The list and counter of the active project are taken from the listed tasks. */
  function Rebase(ix: Index, active: Option<string>, tasks: seq<Task>): Index {
    ix.(ids := ix.ids[ActiveKey(active) := SelectIds(tasks, active)],
        running := ix.running[ActiveKey(active) := CountSelected(tasks, active)])
  }

  /** The index after `setTasks`; `shown` is the visible list before it. */
  function AdoptTasks(ix: Index, shown: seq<Task>, active: Option<string>, incoming: seq<Task>): Index {
    var replaced := ReplaceSnapshot(shown, incoming);
    var merged := MergeAll(ix, replaced);
    Rebase(merged, active, Resolve(merged.byId, replaced))
  }

  lemma {:induction false} SelectMeans(tasks: seq<Task>, active: Option<string>, byId: map<string, Task>)
    requires Distinct(TaskIds(tasks))
    requires forall i :: 0 <= i < |tasks| ==> tasks[i].id in byId && byId[tasks[i].id] == tasks[i]
    ensures Distinct(SelectIds(tasks, active))
    ensures forall id :: id in SelectIds(tasks, active) <==> id in TaskIds(tasks) && byId[id].projectId == active
    ensures CountSelected(tasks, active) == |RunningAmong(SelectIds(tasks, active), byId)|
    decreases |tasks|
  {
    if tasks != [] {
      var n := |tasks| - 1;
      var last, ids := tasks[n], TaskIds(tasks);
      assert TaskIds(tasks[..n]) == ids[..n] && ids == ids[..n] + [last.id];
      assert forall i :: 0 <= i < n ==> ids[i] != ids[n];
      SelectMeans(tasks[..n], active, byId);
      if last.projectId == active {
        SelectOneMore(SelectIds(tasks[..n], active), last.id, byId);
      } else {
        assert SelectIds(tasks, active) == SelectIds(tasks[..n], active);
      }
    }
  }

  function RunningAmong(ids: seq<string>, byId: map<string, Task>): set<string> {
    set id | id in ids && id in byId && IsRunning(byId[id].status)
  }

  lemma {:induction false} SelectOneMore(ids: seq<string>, id: string, byId: map<string, Task>)
    requires Distinct(ids) && id !in ids && id in byId
    ensures Distinct(ids + [id])
    ensures |RunningAmong(ids + [id], byId)| == |RunningAmong(ids, byId)| + if IsRunning(byId[id].status) then 1 else 0
  {
    AppendDistinct(ids, id);
    assert RunningAmong(ids + [id], byId)
        == if IsRunning(byId[id].status) then RunningAmong(ids, byId) + {id} else RunningAmong(ids, byId);
  }

  /** Every stored task under the key of the active project is in the list, and belongs
      to that very project. */
  ghost predicate Covers(byId: map<string, Task>, active: Option<string>, tasks: seq<Task>) {
    forall id :: id in TasksOf(byId, ActiveKey(active)) ==> id in TaskIds(tasks) && byId[id].projectId == active
  }

  lemma RebaseAgreesIffCovering(ix: Index, active: Option<string>, tasks: seq<Task>)
    requires Agrees(ix) && Distinct(TaskIds(tasks))
    requires forall i :: 0 <= i < |tasks| ==> tasks[i].id in ix.byId && ix.byId[tasks[i].id] == tasks[i]
    ensures Agrees(Rebase(ix, active, tasks)) <==> Covers(ix.byId, active, tasks)
  {
    SelectMeans(tasks, active, ix.byId);
    var key, ids, ix' := ActiveKey(active), SelectIds(tasks, active), Rebase(ix, active, tasks);
    forall p | p != key ensures AgreesAt(ix', p) { assert AgreesAt(ix, p); }
    assert forall id :: id in ids ==> id in TasksOf(ix.byId, key);
    if Covers(ix.byId, active, tasks) {
      assert forall id :: id in TasksOf(ix.byId, key) ==> id in ids;
      assert Elements(ids) == TasksOf(ix.byId, key);
      assert RunningOf(ix.byId, key) == RunningAmong(ids, ix.byId);
      assert AgreesAt(ix', key);
    } else {
      var id :| id in TasksOf(ix.byId, key) && !(id in TaskIds(tasks) && ix.byId[id].projectId == active);
      assert id !in Elements(IdsOf(ix'.ids, key));
      assert !AgreesAt(ix', key);
    }
  }

  lemma {:induction false} MergeAllStores(ix: Index, tasks: seq<Task>, id: string)
    requires forall k :: k in ix.byId ==> ix.byId[k].id == k
    ensures id in MergeAll(ix, tasks).byId <==> id in ix.byId || id in TaskIds(tasks)
    ensures id in MergeAll(ix, tasks).byId ==> MergeAll(ix, tasks).byId[id].id == id
    ensures id !in TaskIds(tasks) && id in ix.byId ==> MergeAll(ix, tasks).byId[id] == ix.byId[id]
    decreases |tasks|
  {
    if tasks != [] {
      var n := |tasks| - 1;
      MergeAllStores(ix, tasks[..n], id);
      MergeAllStores(ix, tasks[..n], tasks[n].id);
      assert TaskIds(tasks) == TaskIds(tasks[..n]) + [tasks[n].id];
      MergedShape(Stored(MergeAll(ix, tasks[..n]).byId, tasks[n].id), tasks[n]);
    }
  }

  /** `setTasks` takes the active project's list and counter from the snapshot. For a
      snapshot with distinct ids whose merges lose nothing, that keeps the index in
      agreement if and only if the snapshot covers the active project. */
  lemma SetTasksAgreesIffCovering(ix: Index, shown: seq<Task>, active: Option<string>, incoming: seq<Task>)
    requires Agrees(ix) && NeverLoses(ix, ReplaceSnapshot(shown, incoming))
    requires Distinct(TaskIds(ReplaceSnapshot(shown, incoming)))
    ensures var replaced := ReplaceSnapshot(shown, incoming);
            Agrees(AdoptTasks(ix, shown, active, incoming)) <==> Covers(MergeAll(ix, replaced).byId, active, replaced)
  {
    var replaced := ReplaceSnapshot(shown, incoming);
    var merged := MergeAll(ix, replaced);
    MergeAllAgreesIff(ix, replaced);
    forall i | 0 <= i < |replaced| ensures replaced[i].id in merged.byId && merged.byId[replaced[i].id].id == replaced[i].id {
      MergeAllStores(ix, replaced, replaced[i].id);
      assert TaskIds(replaced)[i] == replaced[i].id;
    }
    var tasks := Resolve(merged.byId, replaced);
    assert TaskIds(tasks) == TaskIds(replaced);
    RebaseAgreesIffCovering(merged, active, tasks);
  }

  /** Unless a project is called like the key of tasks without one, a snapshot covers
      the active project if and only if it lists every task stored for it before. */
  lemma CoversMeansLists(ix: Index, active: Option<string>, tasks: seq<Task>)
    requires forall k :: k in ix.byId ==> ix.byId[k].id == k
    requires active != Some(GLOBAL_TASK_PROJECT)
    requires forall id :: id in MergeAll(ix, tasks).byId ==> MergeAll(ix, tasks).byId[id].projectId != Some(GLOBAL_TASK_PROJECT)
    ensures Covers(MergeAll(ix, tasks).byId, active, tasks)
       <==> forall id :: id in TasksOf(ix.byId, ActiveKey(active)) ==> id in TaskIds(tasks)
  {
    forall id
      ensures id in MergeAll(ix, tasks).byId <==> id in ix.byId || id in TaskIds(tasks)
      ensures id !in TaskIds(tasks) && id in ix.byId ==> MergeAll(ix, tasks).byId[id] == ix.byId[id]
    {
      MergeAllStores(ix, tasks, id);
    }
  }

  // ---- whole runs -------------------------------------------------------------------------

  /** The store's operations on the index; `shown` is the visible list. */
  datatype Operation =
    | RecordTaskFact(task: Task)
    | UpsertTask(task: Task)
    | UpsertTasks(tasks: seq<Task>)
    | SetTasks(shown: seq<Task>, active: Option<string>, incoming: seq<Task>)

  /** The snapshots an operation merges. */
  function Incoming(op: Operation): seq<Task> {
    match op
    case RecordTaskFact(t) => [t]
    case UpsertTask(t) => [t]
    case UpsertTasks(ts) => ts
    case SetTasks(shown, _, incoming) => ReplaceSnapshot(shown, incoming)
  }

  function Step(ix: Index, op: Operation): Index {
    if op.SetTasks? then AdoptTasks(ix, op.shown, op.active, op.incoming) else MergeAll(ix, Incoming(op))
  }

  function Run(ix: Index, ops: seq<Operation>): Index {
    if ops == [] then ix else Step(Run(ix, ops[..|ops| - 1]), ops[|ops| - 1])
  }

  /** The operation loses nothing and, if it replaces the visible tasks, covers the
      active project. */
  ghost predicate Sound(ix: Index, op: Operation) {
    && NeverLoses(ix, Incoming(op))
    && (op.SetTasks? ==> Covers(MergeAll(ix, Incoming(op)).byId, op.active, Incoming(op)))
  }

  ghost predicate AlwaysSound(ix: Index, ops: seq<Operation>) {
    ops == [] || (AlwaysSound(ix, ops[..|ops| - 1]) && Sound(Run(ix, ops[..|ops| - 1]), ops[|ops| - 1]))
  }

  /** The index agrees after every operation, and after every merge within one. */
  ghost predicate AgreesThroughout(ix: Index, ops: seq<Operation>) {
    && Agrees(Run(ix, ops))
    && (ops != [] ==>
          && AgreesThroughout(ix, ops[..|ops| - 1])
          && AgreesAllAlong(Run(ix, ops[..|ops| - 1]), Incoming(ops[|ops| - 1])))
  }

  lemma StepAgreesIff(ix: Index, op: Operation)
    requires Agrees(ix) && (op.SetTasks? ==> Distinct(TaskIds(Incoming(op))))
    ensures (AgreesAllAlong(ix, Incoming(op)) && Agrees(Step(ix, op))) <==> Sound(ix, op)
  {
    MergeAllAgreesIff(ix, Incoming(op));
    if op.SetTasks? && NeverLoses(ix, Incoming(op)) {
      SetTasksAgreesIffCovering(ix, op.shown, op.active, op.incoming);
    }
  }

  /** From every agreeing index and over every run, `setTasks` snapshots with distinct
      ids included: the lists are duplicate-free and equal to the stored tasks and the
      counters equal to a recount at every point, if and only if no operation loses a
      task of the project with the empty id or fails to cover the active project. */
  lemma {:induction false} RunAgrees(ix: Index, ops: seq<Operation>)
    requires Agrees(ix) && forall i :: 0 <= i < |ops| && ops[i].SetTasks? ==> Distinct(TaskIds(Incoming(ops[i])))
    ensures AgreesThroughout(ix, ops) <==> AlwaysSound(ix, ops)
    decreases |ops|
  {
    if ops != [] {
      var init := ops[..|ops| - 1];
      RunAgrees(ix, init);
      if AlwaysSound(ix, init) { StepAgreesIff(Run(ix, init), ops[|ops| - 1]); }
    }
  }

  lemma EmptyAgrees()
    ensures Agrees(EMPTY_INDEX) && AllNamed(EMPTY_INDEX)
  {
    assert forall p :: TasksOf(map[], p) == {} && RunningOf(map[], p) == {};
    assert forall p :: AgreesAt(EMPTY_INDEX, p);
  }

  /** Every operation brings non-empty project ids, and every replacement covers. */
  ghost predicate AlwaysNamed(ix: Index, ops: seq<Operation>) {
    ops == [] ||
    var before, last := Run(ix, ops[..|ops| - 1]), ops[|ops| - 1];
    && AlwaysNamed(ix, ops[..|ops| - 1])
    && (forall i :: 0 <= i < |Incoming(last)| ==> NamedProject(Incoming(last)[i]))
    && (last.SetTasks? ==> Covers(MergeAll(before, Incoming(last)).byId, last.active, Incoming(last)))
  }

  /** With non-empty project ids only uncovered snapshots can break the agreement. */
  lemma {:induction false} NamedRunIsSound(ix: Index, ops: seq<Operation>)
    requires AllNamed(ix) && AlwaysNamed(ix, ops)
    ensures AlwaysSound(ix, ops) && AllNamed(Run(ix, ops))
    decreases |ops|
  {
    if ops != [] {
      var init := ops[..|ops| - 1];
      NamedRunIsSound(ix, init);
      NamedNeverLoses(Run(ix, init), Incoming(ops[|ops| - 1]));
    }
  }

  /** A stored task stays stored and never leaves a terminal status. */
  lemma {:induction false} RunKeepsTerminal(ix: Index, ops: seq<Operation>, id: string)
    requires id in ix.byId && IsTerminal(ix.byId[id].status)
    ensures id in Run(ix, ops).byId && IsTerminal(Run(ix, ops).byId[id].status)
    decreases |ops|
  {
    if ops != [] {
      var mid := Run(ix, ops[..|ops| - 1]);
      RunKeepsTerminal(ix, ops[..|ops| - 1], id);
      MergeAllKeepsTerminal(mid, Incoming(ops[|ops| - 1]), id);
    }
  }

  // ---- the store object ---------------------------------------------------------

  class TaskStore {
    var taskById: map<string, Task>
    var taskIdsByProject: map<string, seq<string>>
    var runningCountByProject: map<string, nat>

    ghost function Model(): Index
      reads this
    {
      Index(taskById, taskIdsByProject, runningCountByProject)
    }

    constructor ()
      ensures Model() == EMPTY_INDEX && Agrees(Model()) && AllNamed(Model())
    {
      taskById, taskIdsByProject, runningCountByProject := map[], map[], map[];
      EmptyAgrees();
    }

    /** `mergeNormalizedTaskFacts`: one pass over the incoming snapshots. */
    method MergeNormalizedTaskFacts(incoming: seq<Task>) returns (changed: bool)
      modifies this
      ensures Model() == MergeAll(old(Model()), incoming)
      ensures !changed ==> Model() == old(Model())
    {
      changed := false;
      var i := 0;
      while i < |incoming|
        invariant 0 <= i <= |incoming|
        invariant Model() == MergeAll(old(Model()), incoming[..i])
        invariant !changed ==> Model() == old(Model())
      {
        assert incoming[..i + 1][..|incoming[..i + 1]| - 1] == incoming[..i];
        var task := incoming[i];
        var previous := if task.id in taskById then Some(taskById[task.id]) else None;
        var merged := MergeTaskSnapshot(previous, task);
        if merged.changed {
          taskById := taskById[task.id := merged.task];
          changed := true;
          ReindexTask(task.id, previous, merged.task);
          RecountTask(previous, merged.task);
        }
        i := i + 1;
      }
      assert incoming[..|incoming|] == incoming;
    }

    method ReindexTask(id: string, previous: Option<Task>, merged: Task)
      modifies `taskIdsByProject
      ensures taskIdsByProject == ReindexIds(old(taskIdsByProject), id, previous, merged)
    {
      var nextKey := ProjectKey(merged);
      if previous.None? || ProjectKey(previous.value) != nextKey {
        if previous.Some? && ProjectKey(previous.value) != "" {
          var previousKey := ProjectKey(previous.value);
          taskIdsByProject := taskIdsByProject[previousKey := Without(IdsOf(taskIdsByProject, previousKey), id)];
        }
        var nextIds := IdsOf(taskIdsByProject, nextKey);
        if id !in nextIds {
          taskIdsByProject := taskIdsByProject[nextKey := nextIds + [id]];
        }
      } else if !IsProgressOnly(previous.value, merged) {
        var currentIds := IdsOf(taskIdsByProject, nextKey);
        taskIdsByProject := taskIdsByProject[nextKey :=
          if currentIds != [] && currentIds[|currentIds| - 1] == id then currentIds
          else Without(currentIds, id) + [id]];
      }
    }

    method RecountTask(previous: Option<Task>, merged: Task)
      modifies `runningCountByProject
      ensures runningCountByProject == Recount(old(runningCountByProject), previous, merged)
    {
      var nextKey := ProjectKey(merged);
      var previousRunning := previous.Some? && IsRunning(previous.value.status);
      var nextRunning := IsRunning(merged.status);
      var sameKey := previous.Some? && ProjectKey(previous.value) == nextKey;
      var contributionChanged := if sameKey then previousRunning != nextRunning else previousRunning || nextRunning;
      if contributionChanged {
        if previous.Some? && ProjectKey(previous.value) != "" && previousRunning {
          var previousKey := ProjectKey(previous.value);
          runningCountByProject := runningCountByProject[previousKey := ClampedPred(CountOf(runningCountByProject, previousKey))];
        }
        if nextRunning {
          runningCountByProject := runningCountByProject[nextKey := CountOf(runningCountByProject, nextKey) + 1];
        }
      }
    }
  }
}
