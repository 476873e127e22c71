/** Task snapshots and their comparison
    (`src/types/task.ts`, `src/services/taskSnapshotSemantics.ts`). */
module TaskSnapshot {
  import opened Common

  /** A JSON value as it arrives over IPC. */
  datatype Json =
    | Null
    | Undefined
    | Bool(b: bool)
    | Number(n: int)
    | Text(s: string)
    | Array(items: seq<Json>)
    | Object(fields: map<string, Json>)

  /** The recursive comparison: same shape, same length or key count, and equal
      members. Keys are compared one way only; the count does the rest. */
  predicate StructurallyEqual(left: Json, right: Json)
    decreases left
  {
    match left
    case Array(xs) =>
      right.Array? && |xs| == |right.items|
      && forall i :: 0 <= i < |xs| ==> StructurallyEqual(xs[i], right.items[i])
    case Object(m) =>
      right.Object? && |m| == |right.fields|
      && forall k :: k in m ==> k in right.fields && StructurallyEqual(m[k], right.fields[k])
    case _ => left == right
  }

  /** A set that contains another of the same size is that set. */
  lemma {:induction false} SameSizeSubset<T>(a: set<T>, b: set<T>)
    requires a <= b && |a| == |b|
    ensures a == b
  {
    if a != b {
      var x :| x in b && x !in a;
      assert a <= b - {x};
      SubsetSize(a, b - {x});
    }
  }

  /** The comparison decides equality of JSON values. */
  lemma {:induction false} StructurallyEqualIsEquality(left: Json, right: Json)
    ensures StructurallyEqual(left, right) <==> left == right
    decreases left
  {
    match left
    case Array(xs) =>
      if right.Array? && |xs| == |right.items| {
        forall i | 0 <= i < |xs|
          ensures StructurallyEqual(xs[i], right.items[i]) <==> xs[i] == right.items[i]
        {
          StructurallyEqualIsEquality(xs[i], right.items[i]);
        }
        if StructurallyEqual(left, right) { assert xs == right.items; }
      }
    case Object(m) =>
      if right.Object? {
        forall k | k in m && k in right.fields
          ensures StructurallyEqual(m[k], right.fields[k]) <==> m[k] == right.fields[k]
        {
          StructurallyEqualIsEquality(m[k], right.fields[k]);
        }
        if StructurallyEqual(left, right) {
          assert |m.Keys| == |m| && |right.fields.Keys| == |right.fields|;
          SameSizeSubset(m.Keys, right.fields.Keys);
          assert m == right.fields;
        }
      }
    case _ =>
  }

  datatype Status =
    | Queued | Running | WaitingForConfirmation | Cancelling
    | Cancelled | Succeeded | Failed | Interrupted

  predicate IsTerminal(s: Status) {
    s.Succeeded? || s.Failed? || s.Cancelled? || s.Interrupted?
  }

  predicate IsRunning(s: Status) {
    s.Running? || s.Cancelling? || s.Queued?
  }

  /** A timestamp text together with what `Date.parse` makes of it. */
  datatype Timestamp = Timestamp(text: string, millis: Option<int>)

  /** `BackendTask`. Fields that no rule looks into are kept in `details`. */
  datatype Task = Task(
    id: string,
    projectId: Option<string>,
    status: Status,
    batchId: Json,
    operation: Json,
    details: Json,
    progress: Json,
    updatedAt: Timestamp)

  /** Everything but `progress` and `updatedAt`. */
  datatype Stable = Stable(
    id: string, projectId: Option<string>, status: Status, batchId: Json, operation: Json, details: Json)

  function StableOf(t: Task): Stable {
    Stable(t.id, t.projectId, t.status, t.batchId, t.operation, t.details)
  }

  predicate StablePartsEqual(left: Task, right: Task)
    ensures StablePartsEqual(left, right) <==> StableOf(left) == StableOf(right)
  {
    StructurallyEqualIsEquality(left.batchId, right.batchId);
    StructurallyEqualIsEquality(left.operation, right.operation);
    StructurallyEqualIsEquality(left.details, right.details);
    && left.id == right.id && left.projectId == right.projectId && left.status == right.status
    && StructurallyEqual(left.batchId, right.batchId)
    && StructurallyEqual(left.operation, right.operation)
    && StructurallyEqual(left.details, right.details)
  }

  predicate TaskSnapshotsEqual(left: Task, right: Task)
    ensures TaskSnapshotsEqual(left, right) <==> left == right
  {
    StructurallyEqualIsEquality(left.progress, right.progress);
    && StablePartsEqual(left, right)
    && StructurallyEqual(left.progress, right.progress)
    && left.updatedAt == right.updatedAt
  }

  /** A change confined to `progress` and `updatedAt`, and not an empty one. */
  predicate IsProgressOnly(previous: Task, incoming: Task)
    ensures IsProgressOnly(previous, incoming)
            <==> previous != incoming && StableOf(previous) == StableOf(incoming)
  {
    StructurallyEqualIsEquality(previous.progress, incoming.progress);
    && !TaskSnapshotsEqual(previous, incoming)
    && StablePartsEqual(previous, incoming)
    && (!StructurallyEqual(previous.progress, incoming.progress)
        || previous.updatedAt != incoming.updatedAt)
  }

  /** The rejection rule shared by the batcher and the task store. */
  predicate IsStale(previous: Task, incoming: Task) {
    || (&& previous.updatedAt.millis.Some? && incoming.updatedAt.millis.Some?
        && previous.updatedAt.millis.value > incoming.updatedAt.millis.value)
    || (IsTerminal(previous.status) && !IsTerminal(incoming.status))
    || (previous.status.WaitingForConfirmation? && incoming.status.Queued?)
  }

  datatype Merge = Merge(task: Task, changed: bool)

  /** Carry over the optional grouping fields an older snapshot does not know. */
  function Inherit(current: Task, incoming: Task): Task {
    var withBatch := if incoming.batchId.Undefined? && !current.batchId.Undefined?
                     then incoming.(batchId := current.batchId) else incoming;
    if withBatch.operation.Undefined? && !current.operation.Undefined?
    then withBatch.(operation := current.operation) else withBatch
  }

  /** `mergeTaskSnapshot` of the task store. */
  function MergeTaskSnapshot(current: Option<Task>, incoming: Task): Merge {
    if current.None? then Merge(incoming, true)
    else if IsStale(current.value, incoming) then Merge(current.value, false)
    else
      var candidate := Inherit(current.value, incoming);
      if TaskSnapshotsEqual(current.value, candidate) then Merge(current.value, false)
      else Merge(candidate, true)
  }

  /** A stored task never leaves a terminal status, never goes back in parsed
      time, and keeps its grouping fields once they are known. */
  lemma MergeNeverRegresses(current: Task, incoming: Task)
    ensures var m := MergeTaskSnapshot(Some(current), incoming).task;
            && (IsTerminal(current.status) ==> IsTerminal(m.status))
            && (current.updatedAt.millis.Some? && m.updatedAt.millis.Some?
                ==> current.updatedAt.millis.value <= m.updatedAt.millis.value)
            && (!current.batchId.Undefined? ==> !m.batchId.Undefined?)
            && (!current.operation.Undefined? ==> !m.operation.Undefined?)
            && !(current.status.WaitingForConfirmation? && m.status.Queued?)
  {
  }

  /** What must be rejected, and nothing else: a snapshot older in parsed time, one that
      leaves a final status, and one that goes from waiting back to queued. */
  predicate Outdated(previous: Task, incoming: Task) {
    var final := {Succeeded, Failed, Cancelled, Interrupted};
    || (match (previous.updatedAt.millis, incoming.updatedAt.millis) case (Some(was), Some(comes)) => comes < was case _ => false)
    || (previous.status in final && incoming.status !in final)
    || (previous.status == WaitingForConfirmation && incoming.status == Queued)
  }

  /** A snapshot is rejected if and only if it is outdated. Otherwise the merged task is
      the incoming one field by field, except that grouping fields it does not know are
      kept; the merge reports a change exactly if there is one. */
  lemma MergeMeans(current: Task, incoming: Task)
    ensures var m := MergeTaskSnapshot(Some(current), incoming);
            && (m.changed <==> m.task != current)
            && if Outdated(current, incoming) then m.task == current
               else && m.task.id == incoming.id && m.task.projectId == incoming.projectId && m.task.status == incoming.status
                    && m.task.details == incoming.details && m.task.progress == incoming.progress
                    && m.task.updatedAt == incoming.updatedAt
                    && m.task.batchId == (if incoming.batchId == Undefined then current.batchId else incoming.batchId)
                    && m.task.operation == (if incoming.operation == Undefined then current.operation else incoming.operation)
    ensures MergeTaskSnapshot(None, incoming) == Merge(incoming, true)
  {
  }
}
