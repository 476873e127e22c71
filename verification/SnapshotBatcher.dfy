/** Coalescing of task progress (`src/services/taskSnapshotBatcher.ts`).

    Snapshots are held back per (project, task) while they only move progress.
    The module proves that this is invisible to the task store: after any
    interleaving of snapshots, timers and explicit flushes, what has been
    delivered followed by what is held back leads to the same stored task as
    handing every snapshot over directly. */
module SnapshotBatcher {
  import opened Common
  import opened TaskSnapshot

  datatype EventType =
    | TaskUpdated | TaskCompleted | TaskFailed | TaskCancelled | ConfirmationRequested | OtherEvent

  datatype Key = Key(projectId: Option<string>, taskId: string)

  datatype Event = Event(kind: EventType, projectId: Option<string>, taskId: string, task: Task)

  function KeyOf(e: Event): Key { Key(e.projectId, e.taskId) }

  /** Events that must never wait. */
  predicate IsBoundary(e: Event) {
    || e.kind.TaskCompleted? || e.kind.TaskFailed? || e.kind.TaskCancelled?
    || e.kind.ConfirmationRequested?
    || e.task.status.WaitingForConfirmation?
    || IsTerminal(e.task.status)
  }

  /** The batcher as one (project, task) key sees it. */
  datatype Lane = Lane(committed: Option<Task>, pending: Option<Event>, delivered: seq<Event>)

  const EMPTY_LANE := Lane(None, None, [])

  function Latest(l: Lane): Option<Task> {
    if l.pending.Some? then Some(l.pending.value.task) else l.committed
  }

  function Commit(l: Lane, e: Event): Lane {
    Lane(Some(e.task), None, l.delivered + [e])
  }

  function Accept(l: Lane, e: Event): Lane {
    var previous := Latest(l);
    if previous.Some? && IsStale(previous.value, e.task) then l
    else if previous.Some? && TaskSnapshotsEqual(previous.value, e.task) then l
    else if IsBoundary(e) then Commit(l, e)
    else if previous.None? || !IsProgressOnly(previous.value, e.task) then Commit(l, e)
    else l.(pending := Some(e))
  }

  /** A snapshot that is outdated or equal to the last accepted one leaves the lane
      alone. Of the others, the first one, completion, failure, cancellation, a request
      for confirmation, a waiting or final status, and a change of anything but progress
      and time are delivered within the call; the rest is held back. */
  lemma AcceptMeans(l: Lane, e: Event)
    ensures var previous := if l.pending.Some? then Some(l.pending.value.task) else l.committed;
            var ignored := previous.Some? && (Outdated(previous.value, e.task) || previous.value == e.task);
            var immediate := || e.kind in {TaskCompleted, TaskFailed, TaskCancelled, ConfirmationRequested}
                             || e.task.status in {WaitingForConfirmation, Succeeded, Failed, Cancelled, Interrupted}
                             || previous.None?
                             || previous.value.(progress := e.task.progress, updatedAt := e.task.updatedAt) != e.task;
            var l' := Accept(l, e);
            if ignored then l' == l
            else if immediate
            then l'.delivered == l.delivered + [e] && l'.pending.None? && l'.committed == Some(e.task)
            else l'.delivered == l.delivered && l'.pending == Some(e) && l'.committed == l.committed
  {
  }

  function Flush(l: Lane): Lane {
    if l.pending.Some? then Commit(l, l.pending.value) else l
  }

  datatype Step = Enqueue(event: Event) | FlushNow

  function Next(l: Lane, s: Step): Lane {
    match s
    case Enqueue(e) => Accept(l, e)
    case FlushNow => Flush(l)
  }

  function Run(l: Lane, steps: seq<Step>): Lane {
    if steps == [] then l else Next(Run(l, steps[..|steps| - 1]), steps[|steps| - 1])
  }

  /** What has reached the listeners, followed by what is still held back. */
  function Outstanding(l: Lane): seq<Event> {
    l.delivered + if l.pending.Some? then [l.pending.value] else []
  }

  // ---- the unbatched reference -------------------------------------------

  /** Every snapshot offered, in order. */
  function Offered(steps: seq<Step>): seq<Event> {
    if steps == [] then []
    else
      var s := steps[|steps| - 1];
      Offered(steps[..|steps| - 1]) + if s.Enqueue? then [s.event] else []
  }

  /** The snapshots an unbatched receiver accepts: neither stale nor equal to
      the last accepted one. */
  function Accepted(events: seq<Event>): (r: seq<Event>)
    ensures r == [] <==> events == []
  {
    if events == [] then []
    else
      var r := Accepted(events[..|events| - 1]);
      var e := events[|events| - 1];
      if r != [] && (IsStale(r[|r| - 1].task, e.task) || r[|r| - 1].task == e.task) then r else r + [e]
  }

  /** The task store after a sequence of deliveries. */
  function Stored(events: seq<Event>): Option<Task> {
    if events == [] then None
    else Some(MergeTaskSnapshot(Stored(events[..|events| - 1]), events[|events| - 1].task).task)
  }

  /** Stable parts in order, neighbours with the same one collapsed. */
  function StableTrace(events: seq<Event>): (r: seq<Stable>)
    ensures r == [] <==> events == []
    ensures events != [] ==> r[|r| - 1] == StableOf(events[|events| - 1].task)
  {
    if events == [] then []
    else
      var r := StableTrace(events[..|events| - 1]);
      var x := StableOf(events[|events| - 1].task);
      if r != [] && r[|r| - 1] == x then r else r + [x]
  }

  function Boundaries(events: seq<Event>): seq<Event> {
    if events == [] then []
    else
      var e := events[|events| - 1];
      Boundaries(events[..|events| - 1]) + if IsBoundary(e) then [e] else []
  }

  predicate IsSubsequence(a: seq<Event>, b: seq<Event>) {
    a == []
    || (&& b != []
        && ((a[|a| - 1] == b[|b| - 1] && IsSubsequence(a[..|a| - 1], b[..|b| - 1]))
            || IsSubsequence(a, b[..|b| - 1])))
  }

  lemma {:induction false} SubsequenceDropLast(a: seq<Event>, b: seq<Event>)
    requires a != [] && IsSubsequence(a, b)
    ensures IsSubsequence(a[..|a| - 1], b)
    decreases |b|
  {
    var b' := b[..|b| - 1];
    if IsSubsequence(a, b') {
      SubsequenceDropLast(a, b');
    }
  }

  // ---- what one step keeps -------------------------------------------------

  predicate Parsed(e: Event) { e.task.updatedAt.millis.Some? }

  /** `stored` is `latest` up to grouping fields carried over from before. */
  predicate Settled(stored: Option<Task>, latest: Task) {
    && stored.Some?
    && stored.value == latest.(batchId := stored.value.batchId, operation := stored.value.operation)
    && (!latest.batchId.Undefined? ==> stored.value.batchId == latest.batchId)
    && (!latest.operation.Undefined? ==> stored.value.operation == latest.operation)
  }

  /** A held-back snapshot refines the committed one and is not older. */
  predicate PendingExtends(l: Lane) {
    l.pending.Some? ==>
      && l.committed.Some? && l.delivered != []
      && !IsBoundary(l.pending.value)
      && StableOf(l.committed.value) == StableOf(l.pending.value.task)
  }

  predicate CommittedIsDelivered(l: Lane) {
    if l.committed.None? then l.delivered == []
    else l.delivered != [] && l.delivered[|l.delivered| - 1].task == l.committed.value
  }

  /** Lane and reference agree on what was accepted. */
  ghost predicate Simulates(l: Lane, accepted: seq<Event>) {
    && PendingExtends(l)
    && CommittedIsDelivered(l)
    && (accepted == [] <==> Outstanding(l) == [])
    && (accepted != [] ==> Outstanding(l)[|Outstanding(l)| - 1] == accepted[|accepted| - 1])
    && IsSubsequence(Outstanding(l), accepted)
    && StableTrace(Outstanding(l)) == StableTrace(accepted)
    && Boundaries(l.delivered) == Boundaries(accepted)
  }

  lemma LatestIsLastOutstanding(l: Lane)
    requires CommittedIsDelivered(l)
    ensures Outstanding(l) == [] <==> Latest(l).None?
    ensures Latest(l).Some? ==> Outstanding(l)[|Outstanding(l)| - 1].task == Latest(l).value
  {
  }

  lemma {:induction false} AppendFacts(s: seq<Event>, e: Event)
    ensures (s + [e])[..|s + [e]| - 1] == s && (s + [e])[|s + [e]| - 1] == e
    ensures StableTrace(s + [e]) ==
            (var r := StableTrace(s);
             if r != [] && r[|r| - 1] == StableOf(e.task) then r else r + [StableOf(e.task)])
    ensures Boundaries(s + [e]) == Boundaries(s) + if IsBoundary(e) then [e] else []
    ensures Stored(s + [e]) == Some(MergeTaskSnapshot(Stored(s), e.task).task)
  {
    assert (s + [e])[..|s + [e]| - 1] == s;
  }

  lemma {:induction false} SubsequenceAppend(a: seq<Event>, b: seq<Event>, e: Event)
    requires IsSubsequence(a, b)
    ensures IsSubsequence(a + [e], b + [e])
  {
    AppendFacts(a, e);
    AppendFacts(b, e);
  }

  // The held-back snapshot adds nothing to the stable trace or the boundaries.
  lemma {:induction false} PendingIsInvisible(l: Lane, accepted: seq<Event>)
    requires Simulates(l, accepted)
    ensures StableTrace(l.delivered) == StableTrace(accepted)
    ensures IsSubsequence(l.delivered, accepted)
  {
    if l.pending.Some? {
      AppendFacts(l.delivered, l.pending.value);
      SubsequenceDropLast(Outstanding(l), accepted);
    } else {
      assert Outstanding(l) == l.delivered;
    }
  }

  // Two sequences with the same stable trace keep the same one when extended alike.
  lemma {:induction false} TracesExtend(a: seq<Event>, b: seq<Event>, e: Event)
    requires StableTrace(a) == StableTrace(b) && Boundaries(a) == Boundaries(b)
    ensures StableTrace(a + [e]) == StableTrace(b + [e]) && Boundaries(a + [e]) == Boundaries(b + [e])
  {
    AppendFacts(a, e);
    AppendFacts(b, e);
  }

  lemma {:induction false} CommitSimulates(l: Lane, accepted: seq<Event>, e: Event)
    requires Simulates(l, accepted)
    requires Latest(l).Some? && !IsBoundary(e) ==> StableOf(Latest(l).value) != StableOf(e.task)
    ensures Simulates(Commit(l, e), accepted + [e])
  {
    PendingIsInvisible(l, accepted);
    TracesExtend(l.delivered, accepted, e);
    SubsequenceAppend(l.delivered, accepted, e);
    CommitShape(l, accepted, e);
  }

  lemma {:induction false} CommitShape(l: Lane, accepted: seq<Event>, e: Event)
    ensures PendingExtends(Commit(l, e)) && CommittedIsDelivered(Commit(l, e))
    ensures Outstanding(Commit(l, e)) == l.delivered + [e] && accepted + [e] != []
    ensures Outstanding(Commit(l, e))[|Outstanding(Commit(l, e))| - 1] == (accepted + [e])[|accepted + [e]| - 1]
  {
    assert Outstanding(Commit(l, e)) == l.delivered + [e];
  }

  lemma {:induction false} HoldSimulates(l: Lane, accepted: seq<Event>, e: Event)
    requires Simulates(l, accepted) && Latest(l).Some? && !IsBoundary(e)
    requires StableOf(Latest(l).value) == StableOf(e.task)
    ensures Simulates(l.(pending := Some(e)), accepted + [e])
  {
    PendingIsInvisible(l, accepted);
    LatestIsLastOutstanding(l);
    AppendFacts(l.delivered, e);
    AppendFacts(accepted, e);
    SubsequenceAppend(l.delivered, accepted, e);
    assert Outstanding(l.(pending := Some(e))) == l.delivered + [e];
  }

  lemma {:induction false} FlushSimulates(l: Lane, accepted: seq<Event>)
    requires Simulates(l, accepted)
    ensures Simulates(Flush(l), accepted)
  {
    if l.pending.Some? {
      AppendFacts(l.delivered, l.pending.value);
      assert Outstanding(Flush(l)) == Outstanding(l);
    }
  }

  lemma {:induction false} AcceptedAppend(offered: seq<Event>, e: Event)
    ensures var r := Accepted(offered);
            Accepted(offered + [e])
            == if r != [] && (IsStale(r[|r| - 1].task, e.task) || r[|r| - 1].task == e.task) then r else r + [e]
  {
    assert (offered + [e])[..|offered|] == offered;
  }

  lemma LatestIsLastAccepted(l: Lane, accepted: seq<Event>)
    requires Simulates(l, accepted)
    ensures Latest(l).None? <==> accepted == []
    ensures Latest(l).Some? ==> accepted[|accepted| - 1].task == Latest(l).value
  {
    LatestIsLastOutstanding(l);
  }

  lemma {:induction false} EnqueueSimulates(l: Lane, offered: seq<Event>, e: Event)
    requires Simulates(l, Accepted(offered))
    ensures Simulates(Accept(l, e), Accepted(offered + [e]))
  {
    AcceptedAppend(offered, e);
    AcceptSimulates(l, Accepted(offered), e);
  }

  lemma {:induction false} AcceptSimulates(l: Lane, accepted: seq<Event>, e: Event)
    requires Simulates(l, accepted)
    ensures Simulates(Accept(l, e),
              if accepted != [] && (IsStale(accepted[|accepted| - 1].task, e.task) || accepted[|accepted| - 1].task == e.task)
              then accepted else accepted + [e])
  {
    LatestIsLastAccepted(l, accepted);
    var previous := Latest(l);
    if previous.None? || !(IsStale(previous.value, e.task) || previous.value == e.task) {
      if IsBoundary(e) || previous.None? || !IsProgressOnly(previous.value, e.task) {
        CommitSimulates(l, accepted, e);
      } else {
        HoldSimulates(l, accepted, e);
      }
    }
  }

  lemma {:induction false} RunSimulates(steps: seq<Step>)
    ensures Simulates(Run(EMPTY_LANE, steps), Accepted(Offered(steps)))
    decreases |steps|
  {
    if steps != [] {
      var init := steps[..|steps| - 1];
      RunSimulates(init);
      match steps[|steps| - 1]
      case FlushNow =>
        FlushSimulates(Run(EMPTY_LANE, init), Accepted(Offered(init)));
        assert Offered(steps) == Offered(init);
      case Enqueue(e) => EnqueueSimulates(Run(EMPTY_LANE, init), Offered(init), e);
    }
  }

  /** Batched delivery refines unbatched delivery: both accept the same
      snapshots; the outstanding ones are a subsequence of the accepted ones that
      ends in the same snapshot, goes through the same stable states in the same
      order, and contains every boundary, which is moreover already delivered. */
  lemma {:induction false} BatchingRefinesDirectDelivery(steps: seq<Step>)
    ensures var l := Run(EMPTY_LANE, steps);
            var accepted := Accepted(Offered(steps));
            && (accepted == [] ==> Outstanding(l) == [])
            && (accepted != [] ==> Latest(l) == Some(accepted[|accepted| - 1].task))
            && IsSubsequence(Outstanding(l), accepted)
            && StableTrace(Outstanding(l)) == StableTrace(accepted)
            && Boundaries(l.delivered) == Boundaries(accepted)
  {
    RunSimulates(steps);
    LatestIsLastOutstanding(Run(EMPTY_LANE, steps));
  }

  // ---- the stored task ---------------------------------------------------

  // Merging a fresh snapshot into a settled store settles on that snapshot.
  lemma MergeSettles(stored: Option<Task>, latest: Task, incoming: Task)
    requires Settled(stored, latest) && !IsStale(latest, incoming)
    ensures Settled(Some(MergeTaskSnapshot(stored, incoming).task), incoming)
    ensures MergeTaskSnapshot(stored, incoming).task == Inherit(stored.value, incoming)
  {
  }

  // A snapshot the batcher rejects, the store rejects too.
  lemma MergeRejects(stored: Option<Task>, latest: Task, incoming: Task)
    requires Settled(stored, latest) && (IsStale(latest, incoming) || latest == incoming)
    ensures Some(MergeTaskSnapshot(stored, incoming).task) == stored
  {
  }

  // Skipping a progress-only snapshot does not change what follows it leads to, unless
  // what follows is stale without it.
  lemma SkippedProgress(stored: Option<Task>, committed: Task, skipped: Task, incoming: Task)
    requires Settled(stored, committed) && StableOf(committed) == StableOf(skipped)
    requires !IsStale(committed, skipped) && !IsStale(skipped, incoming) && !IsStale(committed, incoming)
    ensures var through := Some(MergeTaskSnapshot(stored, skipped).task);
            MergeTaskSnapshot(through, incoming).task == MergeTaskSnapshot(stored, incoming).task
  {
    MergeSettles(stored, committed, skipped);
    MergeSettles(stored, committed, incoming);
    MergeSettles(Some(MergeTaskSnapshot(stored, skipped).task), skipped, incoming);
  }

  /** Everything offered directly and everything outstanding lead to the same
      stored task, and the store of what is delivered lags by at most the
      held-back snapshot. */
  ghost predicate StoreAgrees(l: Lane, offered: seq<Event>) {
    && PendingExtends(l) && CommittedIsDelivered(l)
    && (l.committed.Some? ==> Settled(Stored(l.delivered), l.committed.value))
    && (l.pending.Some? ==> !IsStale(l.committed.value, l.pending.value.task))
    && Stored(Outstanding(l)) == Stored(offered)
    && (Latest(l).Some? ==> Settled(Stored(Outstanding(l)), Latest(l).value))
    && (Latest(l).None? ==> offered == [])
  }

  /** The snapshot passes the held-back one although it is stale against the one
      committed before it. */
  predicate Exposes(l: Lane, e: Event) {
    && l.pending.Some? && l.committed.Some?
    && !IsStale(l.pending.value.task, e.task) && IsStale(l.committed.value, e.task)
  }

  lemma {:induction false} CommitStoreAgrees(l: Lane, offered: seq<Event>, e: Event)
    requires StoreAgrees(l, offered) && !Exposes(l, e)
    requires Latest(l).Some? ==> !IsStale(Latest(l).value, e.task)
    ensures StoreAgrees(Commit(l, e), offered + [e])
  {
    AppendFacts(l.delivered, e);
    AppendFacts(offered, e);
    assert Outstanding(Commit(l, e)) == l.delivered + [e];
    if l.pending.Some? {
      AppendFacts(l.delivered, l.pending.value);
      SkippedProgress(Stored(l.delivered), l.committed.value, l.pending.value.task, e.task);
      MergeSettles(Stored(l.delivered), l.committed.value, e.task);
    } else {
      assert Outstanding(l) == l.delivered;
      if l.committed.Some? {
        MergeSettles(Stored(l.delivered), l.committed.value, e.task);
      }
    }
  }

  lemma {:induction false} HoldStoreAgrees(l: Lane, offered: seq<Event>, e: Event)
    requires StoreAgrees(l, offered) && !Exposes(l, e) && Latest(l).Some? && !IsBoundary(e)
    requires !IsStale(Latest(l).value, e.task) && StableOf(Latest(l).value) == StableOf(e.task)
    ensures StoreAgrees(l.(pending := Some(e)), offered + [e])
  {
    AppendFacts(l.delivered, e);
    AppendFacts(offered, e);
    var l' := l.(pending := Some(e));
    assert Outstanding(l') == l.delivered + [e];
    if l.pending.Some? {
      AppendFacts(l.delivered, l.pending.value);
      SkippedProgress(Stored(l.delivered), l.committed.value, l.pending.value.task, e.task);
    } else {
      assert Outstanding(l) == l.delivered;
    }
    MergeSettles(Stored(l.delivered), l.committed.value, e.task);
  }

  lemma {:induction false} RejectStoreAgrees(l: Lane, offered: seq<Event>, e: Event)
    requires StoreAgrees(l, offered) && Latest(l).Some?
    requires IsStale(Latest(l).value, e.task) || Latest(l).value == e.task
    ensures StoreAgrees(l, offered + [e])
  {
    AppendFacts(offered, e);
    MergeRejects(Stored(offered), Latest(l).value, e.task);
  }

  lemma {:induction false} FlushStoreAgrees(l: Lane, offered: seq<Event>)
    requires StoreAgrees(l, offered)
    ensures StoreAgrees(Flush(l), offered)
  {
    if l.pending.Some? {
      assert Outstanding(Flush(l)) == Outstanding(l) == Flush(l).delivered;
    }
  }

  lemma {:induction false} EnqueueStoreAgrees(l: Lane, offered: seq<Event>, e: Event)
    requires StoreAgrees(l, offered) && !Exposes(l, e)
    ensures StoreAgrees(Accept(l, e), offered + [e])
  {
    var previous := Latest(l);
    if previous.Some? && (IsStale(previous.value, e.task) || previous.value == e.task) {
      RejectStoreAgrees(l, offered, e);
    } else if IsBoundary(e) || previous.None? || !IsProgressOnly(previous.value, e.task) {
      CommitStoreAgrees(l, offered, e);
    } else {
      HoldStoreAgrees(l, offered, e);
    }
  }

  lemma {:induction false} FlushedStore(l: Lane, offered: seq<Event>)
    requires StoreAgrees(l, offered)
    ensures Stored(Flush(l).delivered) == Stored(offered)
  {
    FlushStoreAgrees(l, offered);
    assert Outstanding(Flush(l)) == Flush(l).delivered;
  }

  /** No snapshot of the run meets a held-back one that hides its staleness. */
  predicate NeverExposes(steps: seq<Step>) {
    steps == [] ||
    var init, last := steps[..|steps| - 1], steps[|steps| - 1];
    NeverExposes(init) && (last.Enqueue? ==> !Exposes(Run(EMPTY_LANE, init), last.event))
  }

  /** Flushed now, the delivered snapshots lead to the task that direct delivery of
      every offered snapshot leads to. */
  predicate StoresAgree(steps: seq<Step>) {
    Stored(Flush(Run(EMPTY_LANE, steps)).delivered) == Stored(Offered(steps))
  }

  predicate AlwaysAgree(steps: seq<Step>) {
    StoresAgree(steps) && (steps != [] ==> AlwaysAgree(steps[..|steps| - 1]))
  }

  lemma {:induction false} RunStoreAgrees(steps: seq<Step>)
    requires NeverExposes(steps)
    ensures StoreAgrees(Run(EMPTY_LANE, steps), Offered(steps)) && AlwaysAgree(steps)
    decreases |steps|
  {
    if steps != [] {
      var init := steps[..|steps| - 1];
      RunStoreAgrees(init);
      match steps[|steps| - 1]
      case FlushNow =>
        FlushStoreAgrees(Run(EMPTY_LANE, init), Offered(init));
        assert Offered(steps) == Offered(init);
      case Enqueue(e) => EnqueueStoreAgrees(Run(EMPTY_LANE, init), Offered(init), e);
    }
    FlushedStore(Run(EMPTY_LANE, steps), Offered(steps));
  }

  // A snapshot that passes the held-back one, flushed, is delivered last.
  lemma {:induction false} ExposedIsDelivered(l: Lane, e: Event)
    requires Exposes(l, e) && !IsStale(l.committed.value, l.pending.value.task)
    ensures Flush(Accept(l, e)).delivered == l.delivered + [e]
  {
    assert e.task != l.pending.value.task;
  }

  // Taken after one task and rejected after another, a snapshot leaves tasks that differ
  // in time or status.
  lemma TakenDiffersFromRejected(direct: Option<Task>, latest: Task, batched: Option<Task>, committed: Task, incoming: Task)
    requires Settled(direct, latest) && !IsStale(latest, incoming)
    requires Settled(batched, committed) && IsStale(committed, incoming)
    ensures MergeTaskSnapshot(direct, incoming).task != MergeTaskSnapshot(batched, incoming).task
  {
    MergeSettles(direct, latest, incoming);
    MergeRejects(batched, committed, incoming);
  }

  lemma {:induction false} ExposureIsVisible(l: Lane, offered: seq<Event>, e: Event)
    requires StoreAgrees(l, offered) && Exposes(l, e)
    ensures Stored(Flush(Accept(l, e)).delivered) != Stored(offered + [e])
  {
    AppendFacts(offered, e);
    AppendFacts(l.delivered, e);
    ExposedIsDelivered(l, e);
    TakenDiffersFromRejected(Stored(offered), l.pending.value.task, Stored(l.delivered), l.committed.value, e.task);
  }

  lemma {:induction false} FirstExposureIsVisible(steps: seq<Step>)
    requires !NeverExposes(steps)
    ensures !AlwaysAgree(steps)
    decreases |steps|
  {
    var init := steps[..|steps| - 1];
    if NeverExposes(init) {
      RunStoreAgrees(init);
      ExposureIsVisible(Run(EMPTY_LANE, init), Offered(init), steps[|steps| - 1].event);
    } else {
      FirstExposureIsVisible(init);
    }
  }

  /** Coalescing is invisible to the task store at every point of a run, if and only if
      no snapshot ever passes a held-back one while it is stale against the one
      committed before. A caller can test that before each enqueue. */
  lemma {:induction false} BatchedStoreEqualsDirectStore(steps: seq<Step>)
    ensures AlwaysAgree(steps) <==> NeverExposes(steps)
  {
    if NeverExposes(steps) { RunStoreAgrees(steps); } else { FirstExposureIsVisible(steps); }
  }

  /** Timestamps that parse never expose anything. */
  lemma {:induction false} ParsedNeverExposes(steps: seq<Step>)
    requires forall e :: e in Offered(steps) ==> Parsed(e)
    ensures NeverExposes(steps) && StoresAgree(steps)
    decreases |steps|
  {
    if steps != [] {
      var init := steps[..|steps| - 1];
      assert forall e :: e in Offered(init) ==> e in Offered(steps);
      ParsedNeverExposes(init);
      RunStoreAgrees(init);
      RunHoldsOffered(init);
      if steps[|steps| - 1].Enqueue? { assert steps[|steps| - 1].event in Offered(steps); }
    }
    RunStoreAgrees(steps);
  }

  lemma {:induction false} RunHoldsOffered(steps: seq<Step>)
    ensures var l := Run(EMPTY_LANE, steps);
            && (l.pending.Some? ==> l.pending.value in Offered(steps))
            && (l.committed.Some? ==> exists e :: e in Offered(steps) && e.task == l.committed.value)
    decreases |steps|
  {
    if steps != [] { RunHoldsOffered(steps[..|steps| - 1]); }
  }

  /** An unparsable timestamp can: collapsing the snapshot without one lets the store
      compare, and reject, across it. */
  lemma {:induction false} UnparsedTimestampIsVisible() returns (steps: seq<Step>)
    ensures !NeverExposes(steps) && !StoresAgree(steps)
  {
    var base := Task("t", None, Running, Undefined, Undefined, Null, Number(0), Timestamp("b", Some(10)));
    var e0 := Event(TaskUpdated, None, "t", base);
    var e1 := Event(TaskUpdated, None, "t", base.(progress := Number(1), updatedAt := Timestamp("?", None)));
    var e2 := Event(TaskUpdated, None, "t", base.(progress := Number(2), updatedAt := Timestamp("a", Some(5))));
    steps := [Enqueue(e0), Enqueue(e1), Enqueue(e2)];
    ThreeSteps(e0, e1, e2);
    var l1 := Accept(EMPTY_LANE, e0);
    assert l1 == Lane(Some(e0.task), None, [e0]);
    var l3 := Accept(Accept(l1, e1), e2);
    assert l3 == l1.(pending := Some(e2));
    assert Flush(l3).delivered == [e0, e2];
    ThreeStored(e0, e1, e2);
    BatchedStoreEqualsDirectStore(steps);
  }

  lemma {:induction false} ThreeSteps(e0: Event, e1: Event, e2: Event)
    ensures var steps := [Enqueue(e0), Enqueue(e1), Enqueue(e2)];
            Run(EMPTY_LANE, steps) == Accept(Accept(Accept(EMPTY_LANE, e0), e1), e2) && Offered(steps) == [e0, e1, e2]
  {
    var s0, s1, s2 := Enqueue(e0), Enqueue(e1), Enqueue(e2);
    assert [s0][..0] == [] && [s0, s1][..1] == [s0] && [s0, s1, s2][..2] == [s0, s1];
    assert Run(EMPTY_LANE, [s0]) == Accept(EMPTY_LANE, e0) && Offered([s0]) == [e0];
    assert Run(EMPTY_LANE, [s0, s1]) == Accept(Accept(EMPTY_LANE, e0), e1) && Offered([s0, s1]) == [e0, e1];
  }

  lemma {:induction false} ThreeStored(e0: Event, e1: Event, e2: Event)
    ensures Stored([e0, e2]) == Some(MergeTaskSnapshot(Some(e0.task), e2.task).task)
    ensures Stored([e0, e1, e2]) == Some(MergeTaskSnapshot(Some(MergeTaskSnapshot(Some(e0.task), e1.task).task), e2.task).task)
  {
    assert [e0][..0] == [] && [e0, e2][..1] == [e0] && [e0, e1][..1] == [e0] && [e0, e1, e2][..2] == [e0, e1];
    assert Stored([e0]) == Some(e0.task);
    assert Stored([e0, e1]) == Some(MergeTaskSnapshot(Some(e0.task), e1.task).task);
  }

  // ---- the batcher object --------------------------------------------------

  datatype RawEvent = RawEvent(kind: EventType, projectId: Option<string>, taskId: string, payload: Option<Task>)

  datatype PendingSnapshot = PendingSnapshot(event: Event, timerId: nat)

  /** The deliveries that concern one key, in order. */
  function DeliveriesFor(log: seq<Event>, k: Key): seq<Event> {
    if log == [] then []
    else
      var e := log[|log| - 1];
      DeliveriesFor(log[..|log| - 1], k) + if KeyOf(e) == k then [e] else []
  }

  lemma {:induction false} DeliveriesForAppend(log: seq<Event>, e: Event, k: Key)
    ensures DeliveriesFor(log + [e], k) == DeliveriesFor(log, k) + if KeyOf(e) == k then [e] else []
  {
    assert (log + [e])[..|log|] == log;
  }

  class TaskSnapshotBatcher {
    var committed: map<Key, Task>
    var pending: map<Key, PendingSnapshot>
    /** Live scheduler timers and the key their callback flushes. */
    var timers: map<nat, Key>
    var nextTimer: nat
    /** What the listeners have received. */
    var delivered: seq<Event>

    /** Every held-back snapshot has its own live timer and there are no others. */
    ghost predicate Valid()
      reads this
    {
      && (forall k :: k in pending ==>
            && KeyOf(pending[k].event) == k
            && pending[k].timerId in timers && timers[pending[k].timerId] == k)
      && (forall id :: id in timers ==>
            id < nextTimer && timers[id] in pending && pending[timers[id]].timerId == id)
    }

    ghost function LaneOf(k: Key): Lane
      reads this
    {
      Lane(if k in committed then Some(committed[k]) else None,
           if k in pending then Some(pending[k].event) else None,
           DeliveriesFor(delivered, k))
    }

    constructor ()
      ensures Valid() && forall k :: LaneOf(k) == EMPTY_LANE
    {
      committed, pending, timers, nextTimer, delivered := map[], map[], map[], 0, [];
    }

    /** Returns false for events that are not task snapshots: the dispatcher
        passes those on itself. */
    method Enqueue(raw: RawEvent) returns (handled: bool)
      requires Valid()
      modifies this
      ensures Valid()
      ensures handled <==> raw.taskId != "" && raw.payload.Some?
      ensures !handled ==> unchanged(this)
      ensures handled ==>
                var e := Event(raw.kind, raw.projectId, raw.taskId, raw.payload.value);
                forall k :: LaneOf(k) == if k == KeyOf(e) then Accept(old(LaneOf(k)), e) else old(LaneOf(k))
    {
      if raw.taskId == "" || raw.payload.None? { return false; }
      var event := Event(raw.kind, raw.projectId, raw.taskId, raw.payload.value);
      var key := KeyOf(event);
      var previous := if key in pending then Some(pending[key].event.task)
                      else if key in committed then Some(committed[key]) else None;
      if previous.Some? && IsStale(previous.value, event.task) { return true; }
      if previous.Some? && TaskSnapshotsEqual(previous.value, event.task) { return true; }
      if IsBoundary(event) {
        Drop(key);
        Deliver(key, event);
        return true;
      }
      if previous.None? || !IsProgressOnly(previous.value, event.task) {
        Drop(key);
        Deliver(key, event);
        return true;
      }
      if key in pending {
        pending := pending[key := pending[key].(event := event)];
        return true;
      }
      timers := timers[nextTimer := key];
      pending := pending[key := PendingSnapshot(event, nextTimer)];
      nextTimer := nextTimer + 1;
      return true;
    }

    /** The timer callback and `flushTask` both come here. */
    method FlushKey(key: Key) returns (flushed: bool)
      requires Valid()
      modifies this
      ensures Valid() && key !in pending
      ensures flushed <==> key in old(pending)
      ensures flushed ==> timers == old(timers) - {old(pending)[key].timerId}
      ensures forall k :: LaneOf(k) == if k == key then Flush(old(LaneOf(k))) else old(LaneOf(k))
    {
      if key !in pending { return false; }
      var snapshot := pending[key];
      timers := timers - {snapshot.timerId};
      pending := pending - {key};
      Deliver(key, snapshot.event);
      return true;
    }

    /** A live timer fires: its key is flushed, and nothing is left to fire twice. */
    method OnTimer(id: nat)
      requires Valid() && id in timers
      modifies this
      ensures Valid() && id !in timers
      ensures forall k :: LaneOf(k) == if k == old(timers[id]) then Flush(old(LaneOf(k))) else old(LaneOf(k))
    {
      var _ := FlushKey(timers[id]);
    }

    method Drop(key: Key)
      requires Valid()
      modifies `pending, `timers
      ensures Valid() && key !in pending
      ensures pending == old(pending) - {key}
    {
      if key !in pending { return; }
      timers := timers - {pending[key].timerId};
      pending := pending - {key};
    }

    method Deliver(key: Key, event: Event)
      requires Valid() && KeyOf(event) == key && key !in pending
      modifies `committed, `delivered
      ensures Valid()
      ensures forall k :: LaneOf(k) == if k == key then Commit(old(LaneOf(k)), event) else old(LaneOf(k))
    {
      committed := committed[key := event.task];
      delivered := delivered + [event];
      forall k
        ensures LaneOf(k) == if k == key then Commit(old(LaneOf(k)), event) else old(LaneOf(k))
      {
        DeliveriesForAppend(old(delivered), event, k);
      }
    }
  }
}
