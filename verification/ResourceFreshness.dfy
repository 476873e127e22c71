/** Freshness of one project resource (`src/lib/projectResourceFreshness.ts`).

    `ensure` serves from cache, joins the load in flight or starts one; a load that
    was invalidated while it ran is repeated before the promise resolves. Loads take
    a request epoch when they begin and only mark the resource loaded while that
    epoch is current (`src/stores/settingsStore.ts`, `loadChatConvenienceAuthorization`). */
module ResourceFreshness {
  import opened Common

  /** One promise made by `ensure`: its loop is at a load begun at tick `begun`
      under request epoch `epoch`, or has left the loop. */
  datatype Active = Active(key: string, dirty: bool, epoch: nat, begun: nat, exited: bool)

  /** The controller, the promises still around, and a logical clock. `fetched` is
      the tick at which the load of the data now shown began; `invalidated` the tick
      of the latest invalidation of each key. */
  datatype State = State(
    requestEpoch: nat,
    inFlight: Option<nat>,
    actives: map<nat, Active>,
    nextId: nat,
    loadedProjectKey: string,
    updatedAt: nat,
    fetched: nat,
    tick: nat,
    invalidated: map<string, nat>)

  const INITIAL := State(0, None, map[], 0, "", 0, 0, 1, map[])

  function LastInvalidated(s: State, key: string): nat {
    if key in s.invalidated then s.invalidated[key] else 0
  }

  predicate ServesCache(s: State, key: string, now: nat, ttl: nat) {
    s.loadedProjectKey == key && s.updatedAt > 0 && now as int - s.updatedAt as int < ttl
  }

  predicate Joins(s: State, key: string) {
    s.inFlight.Some? && s.inFlight.value in s.actives && s.actives[s.inFlight.value].key == key
  }

  function Ensure(s: State, key: string, now: nat, ttl: nat): State {
    if ServesCache(s, key, now, ttl) || Joins(s, key) then s
    else s.(requestEpoch := s.requestEpoch + 1,
            inFlight := Some(s.nextId),
            actives := s.actives[s.nextId := Active(key, false, s.requestEpoch + 1, s.tick, false)],
            nextId := s.nextId + 1)
  }

  datatype Reply = Loaded | FellBack | Rejected

  /** The load of a promise comes back. A current success is committed; then the
      loop either begins another load or ends. */
  function LoadReturns(s: State, id: nat, reply: Reply, now: nat): State {
    if id !in s.actives || s.actives[id].exited then s
    else
      var a := s.actives[id];
      var committed := if reply.Loaded? && a.epoch == s.requestEpoch
                       then s.(loadedProjectKey := a.key, updatedAt := now, fetched := a.begun) else s;
      if a.dirty && !reply.Rejected? then
        committed.(requestEpoch := s.requestEpoch + 1,
                   actives := s.actives[id := Active(a.key, false, s.requestEpoch + 1, s.tick, false)])
      else committed.(actives := s.actives[id := a.(exited := true)])
  }

  /** The `finally` handler of a promise runs, some time after its loop ended. */
  function Settle(s: State, id: nat): State {
    if id !in s.actives || !s.actives[id].exited then s
    else s.(inFlight := if s.inFlight == Some(id) then None else s.inFlight, actives := s.actives - {id})
  }

  function Invalidate(s: State, key: string): State {
    var noted := s.(invalidated := s.invalidated[key := s.tick]);
    if s.loadedProjectKey != key && !Joins(s, key) then noted
    else
      var bumped := noted.(requestEpoch := s.requestEpoch + 1, updatedAt := 0);
      if Joins(s, key)
      then bumped.(actives := s.actives[s.inFlight.value := s.actives[s.inFlight.value].(dirty := true)])
      else bumped
  }

  function Reset(s: State): State {
    s.(inFlight := None, loadedProjectKey := "", requestEpoch := s.requestEpoch + 1)
  }

  datatype Step =
    | EnsureCalled(key: string, now: nat, ttl: nat)
    | LoadReplies(id: nat, reply: Reply, now: nat)
    | PromiseSettles(id: nat)
    | Invalidated(key: string)
    | ResetCalled

  function Effect(s: State, step: Step): State {
    match step
    case EnsureCalled(key, now, ttl) => Ensure(s, key, now, ttl)
    case LoadReplies(id, reply, now) => LoadReturns(s, id, reply, now)
    case PromiseSettles(id) => Settle(s, id)
    case Invalidated(key) => Invalidate(s, key)
    case ResetCalled => Reset(s)
  }

  function Next(s: State, step: Step): (s': State)
    ensures s'.tick > s.tick
  {
    var e := Effect(s, step);
    e.(tick := s.tick + 1)
  }

  function Run(steps: seq<Step>): State {
    if steps == [] then INITIAL else Next(Run(steps[..|steps| - 1]), steps[|steps| - 1])
  }

  /** The promise in flight, if its load must be repeated, has already left its loop. */
  predicate ResetAllowed(s: State) {
    s.inFlight.Some? && s.inFlight.value in s.actives && s.actives[s.inFlight.value].dirty
    ==> s.actives[s.inFlight.value].exited
  }

  /** All calls are about one project key, and `reset` is not called while the promise
      in flight is about to repeat its load. */
  predicate Disciplined(s: State, step: Step, key: string) {
    match step
    case EnsureCalled(k, _, _) => k == key
    case Invalidated(k) => k == key
    case ResetCalled => ResetAllowed(s)
    case _ => true
  }

  predicate DisciplinedRun(steps: seq<Step>, key: string) {
    steps == []
    || (&& DisciplinedRun(steps[..|steps| - 1], key)
        && Disciplined(Run(steps[..|steps| - 1]), steps[|steps| - 1], key))
  }

  // ---- what every step keeps -----------------------------------------------------------

  ghost predicate ActiveOk(s: State, key: string, id: nat) {
    id in s.actives ==>
      var a := s.actives[id];
      && a.key == key && id < s.nextId && a.epoch <= s.requestEpoch && a.begun < s.tick
      // A load that may still commit has not been invalidated since it began.
      && (!a.exited && a.epoch == s.requestEpoch ==> a.begun >= LastInvalidated(s, key) && s.inFlight == Some(id))
      // The loop in flight ends only with a load that has not been invalidated.
      && (!a.exited && s.inFlight == Some(id) && !a.dirty ==> a.begun >= LastInvalidated(s, key))
      // A promise that was let go never repeats its load.
      && (s.inFlight != Some(id) ==> a.exited || !a.dirty)
  }

  ghost predicate Inv(s: State, key: string) {
    && key != ""
    && LastInvalidated(s, key) < s.tick
    && (s.inFlight.Some? ==> s.inFlight.value in s.actives)
    && (s.loadedProjectKey == key && s.updatedAt > 0 ==> s.fetched >= LastInvalidated(s, key))
    && (forall id :: ActiveOk(s, key, id))
  }

  lemma EnsureKeepsInv(s: State, key: string, now: nat, ttl: nat)
    requires Inv(s, key)
    ensures Inv(Next(s, EnsureCalled(key, now, ttl)), key)
  {
    var s' := Next(s, EnsureCalled(key, now, ttl));
    forall id ensures ActiveOk(s', key, id) {
      assert ActiveOk(s, key, id);
      if s.inFlight.Some? { assert ActiveOk(s, key, s.inFlight.value); }
    }
  }

  lemma ReplyKeepsInv(s: State, key: string, id: nat, reply: Reply, now: nat)
    requires Inv(s, key)
    ensures Inv(Next(s, LoadReplies(id, reply, now)), key)
  {
    var s' := Next(s, LoadReplies(id, reply, now));
    assert ActiveOk(s, key, id);
    forall j ensures ActiveOk(s', key, j) {
      assert ActiveOk(s, key, j);
    }
  }

  lemma InvalidateKeepsInv(s: State, key: string)
    requires Inv(s, key)
    ensures Inv(Next(s, Invalidated(key)), key)
  {
    var s' := Next(s, Invalidated(key));
    forall id ensures ActiveOk(s', key, id) {
      assert ActiveOk(s, key, id);
      if s.inFlight.Some? { assert ActiveOk(s, key, s.inFlight.value); }
    }
  }

  lemma OthersKeepInv(s: State, key: string, step: Step)
    requires Inv(s, key) && (step.PromiseSettles? || step.ResetCalled?) && Disciplined(s, step, key)
    ensures Inv(Next(s, step), key)
  {
    var s' := Next(s, step);
    forall id ensures ActiveOk(s', key, id) {
      assert ActiveOk(s, key, id);
    }
  }

  lemma {:induction false} RunKeepsInv(steps: seq<Step>, key: string)
    requires key != "" && DisciplinedRun(steps, key)
    ensures Inv(Run(steps), key)
    decreases |steps|
  {
    if steps != [] {
      var init := steps[..|steps| - 1];
      RunKeepsInv(init, key);
      match steps[|steps| - 1]
      case EnsureCalled(k, now, ttl) => EnsureKeepsInv(Run(init), key, now, ttl);
      case LoadReplies(id, reply, now) => ReplyKeepsInv(Run(init), key, id, reply, now);
      case Invalidated(k) => InvalidateKeepsInv(Run(init), key);
      case PromiseSettles(id) => OthersKeepInv(Run(init), key, PromiseSettles(id));
      case ResetCalled => OthersKeepInv(Run(init), key, ResetCalled);
    }
  }

  /** What the cache holds was committed by a reply of the run, at the time it is
      stamped with, and has not been invalidated since. */
  lemma {:induction false} CacheProvenance(steps: seq<Step>) returns (i: nat)
    requires Run(steps).loadedProjectKey != "" && Run(steps).updatedAt > 0
    ensures i < |steps| && CommittedBy(Run(steps[..i]), steps[i], Run(steps))
    ensures forall j :: i < j < |steps| ==> steps[j] != Invalidated(Run(steps).loadedProjectKey)
    decreases |steps|
  {
    var n := |steps| - 1;
    ProvenanceStep(Run(steps[..n]), steps[n]);
    if CommittedBy(Run(steps[..n]), steps[n], Run(steps)) {
      i := n;
    } else {
      i := CacheProvenance(steps[..n]);
      assert steps[..n][..i] == steps[..i];
      assert forall j :: i < j < n ==> steps[..n][j] == steps[j];
    }
  }

  lemma ProvenanceStep(s: State, step: Step)
    requires Next(s, step).loadedProjectKey != "" && Next(s, step).updatedAt > 0
    ensures CommittedBy(s, step, Next(s, step))
            || (&& Next(s, step).loadedProjectKey == s.loadedProjectKey && Next(s, step).updatedAt == s.updatedAt
                && Next(s, step).fetched == s.fetched && step != Invalidated(s.loadedProjectKey))
  {
  }

  /** The step is a successful reply whose load gave the data `now` holds. */
  predicate CommittedBy(before: State, step: Step, now: State) {
    && step.LoadReplies? && step.reply.Loaded? && step.id in before.actives
    && before.actives[step.id].key == now.loadedProjectKey && before.actives[step.id].begun == now.fetched
    && step.now == now.updatedAt
  }

  /** Data served from cache came with a reply that arrived less than the time to live
      ago, to a load that began after the last invalidation. */
  lemma {:induction false} CacheIsFresh(steps: seq<Step>, key: string, now: nat, ttl: nat) returns (i: nat)
    requires key != "" && DisciplinedRun(steps, key) && ServesCache(Run(steps), key, now, ttl)
    ensures i < |steps| && steps[i].LoadReplies? && steps[i].reply.Loaded? && now as int - steps[i].now as int < ttl
    ensures var before := Run(steps[..i]);
            steps[i].id in before.actives && before.actives[steps[i].id].begun >= LastInvalidated(Run(steps), key)
    ensures forall j :: i < j < |steps| ==> steps[j] != Invalidated(key)
  {
    RunKeepsInv(steps, key);
    i := CacheProvenance(steps);
  }

  /** When the loop of the promise in flight ends with data, its load began after every
      invalidation that precedes the exit test. For a promise that was let go,
      `LetGoResolvesFreshIff` says when that holds. */
  lemma {:induction false} ResolvedLoadIsFresh(steps: seq<Step>, key: string, id: nat, reply: Reply, now: nat)
    requires key != "" && DisciplinedRun(steps, key) && !reply.Rejected?
    requires Run(steps).inFlight == Some(id) && id in Run(steps).actives && !Run(steps).actives[id].exited
    ensures var after := LoadReturns(Run(steps), id, reply, now);
            id in after.actives && (after.actives[id].exited ==> after.actives[id].begun >= LastInvalidated(Run(steps), key))
  {
    RunKeepsInv(steps, key);
    assert ActiveOk(Run(steps), key, id);
  }

  // A promise that was let go is not touched until its load returns.
  lemma LetGoStep(s: State, step: Step, key: string, id: nat)
    requires Inv(s, key) && Disciplined(s, step, key) && LetGo(s, id) && Running(Next(s, step), id)
    ensures Running(s, id) && s.actives[id] == Next(s, step).actives[id] && s.actives[id].begun < s.tick
    ensures LastInvalidated(Next(s, step), key) == if step.Invalidated? then s.tick else LastInvalidated(s, key)
  {
    assert ActiveOk(s, key, id);
  }

  predicate NoInvalidation(steps: seq<Step>) {
    steps == [] || (NoInvalidation(steps[..|steps| - 1]) && !steps[|steps| - 1].Invalidated?)
  }

  lemma {:induction false} RunMore(before: seq<Step>, more: seq<Step>)
    requires more != []
    ensures Run(before + more) == Next(Run(before + more[..|more| - 1]), more[|more| - 1])
    ensures forall key :: DisciplinedRun(before + more, key) ==> DisciplinedRun(before + more[..|more| - 1], key)
    ensures forall key :: DisciplinedRun(before + more, key) ==> Disciplined(Run(before + more[..|more| - 1]), more[|more| - 1], key)
  {
    assert (before + more)[..|before + more| - 1] == before + more[..|more| - 1];
  }

  /** Let go, and never in flight again. */
  predicate LetGo(s: State, id: nat) { s.inFlight != Some(id) && id < s.nextId }

  lemma LetGoForGood(s: State, step: Step, id: nat)
    requires LetGo(s, id)
    ensures LetGo(Next(s, step), id)
  {
  }

  lemma {:induction false} NeverBackInFlight(before: seq<Step>, more: seq<Step>, id: nat)
    requires LetGo(Run(before), id)
    ensures LetGo(Run(before + more), id)
    decreases |more|
  {
    if more == [] {
      assert before + more == before;
    } else {
      RunMore(before, more);
      NeverBackInFlight(before, more[..|more| - 1], id);
      LetGoForGood(Run(before + more[..|more| - 1]), more[|more| - 1], id);
    }
  }

  /** The promise's load is still out. */
  predicate Running(s: State, id: nat) { id in s.actives && !s.actives[id].exited }

  predicate BegunSinceInvalidation(s: State, begun: nat, key: string) { begun >= LastInvalidated(s, key) }

  lemma {:induction false} LetGoStretch(before: seq<Step>, more: seq<Step>, key: string, id: nat)
    requires key != "" && DisciplinedRun(before + more, key) && LetGo(Run(before), id) && Running(Run(before + more), id)
    ensures Running(Run(before), id) && Run(before).actives[id] == Run(before + more).actives[id]
    ensures BegunSinceInvalidation(Run(before), Run(before).actives[id].begun, key) ==>
              (BegunSinceInvalidation(Run(before + more), Run(before).actives[id].begun, key) <==> NoInvalidation(more))
    decreases |more|
  {
    if more == [] {
      assert before + more == before;
    } else {
      LetGoLast(before, more, key, id);
      LetGoStretch(before, more[..|more| - 1], key, id);
    }
  }

  lemma {:induction false} LetGoLast(before: seq<Step>, more: seq<Step>, key: string, id: nat)
    requires more != [] && key != "" && DisciplinedRun(before + more, key) && LetGo(Run(before), id) && Running(Run(before + more), id)
    ensures var s, s' := Run(before + more[..|more| - 1]), Run(before + more);
            && DisciplinedRun(before + more[..|more| - 1], key)
            && Running(s, id) && s.actives[id] == s'.actives[id]
            && (BegunSinceInvalidation(s', s.actives[id].begun, key)
                <==> BegunSinceInvalidation(s, s.actives[id].begun, key) && !more[|more| - 1].Invalidated?)
  {
    var init := more[..|more| - 1];
    RunMore(before, more);
    RunKeepsInv(before + init, key);
    NeverBackInFlight(before, init, id);
    LetGoStep(Run(before + init), more[|more| - 1], key, id);
  }

  /** A promise that an allowed `reset` let go resolves with data that is still fresh
      if and only if the key was not invalidated between the `reset` and the reply. */
  lemma {:induction false} LetGoResolvesFreshIff(steps: seq<Step>, more: seq<Step>, key: string, id: nat, reply: Reply, now: nat)
    requires key != "" && DisciplinedRun(steps + [ResetCalled] + more, key) && !reply.Rejected?
    requires Run(steps).inFlight == Some(id) && id in Run(steps).actives
    requires Running(Run(steps + [ResetCalled] + more), id)
    ensures var end := Run(steps + [ResetCalled] + more);
            var after := LoadReturns(end, id, reply, now);
            && id in after.actives && after.actives[id].exited
            && (after.actives[id].begun >= LastInvalidated(end, key) <==> NoInvalidation(more))
  {
    var reset := steps + [ResetCalled];
    DisciplinedPrefix(reset, more, key);
    DisciplinedPrefix(steps, [ResetCalled], key);
    RunMore(steps, [ResetCalled]);
    assert steps + [ResetCalled][..0] == steps;
    RunKeepsInv(steps, key);
    RunKeepsInv(reset + more, key);
    RunSnoc(steps, ResetCalled);
    assert ActiveOk(Run(steps), key, id);
    LetGoStretch(reset, more, key, id);
    NeverBackInFlight(reset, more, id);
    assert ActiveOk(Run(reset + more), key, id);
  }

  lemma {:induction false} DisciplinedPrefix(before: seq<Step>, more: seq<Step>, key: string)
    requires DisciplinedRun(before + more, key)
    ensures DisciplinedRun(before, key)
    decreases |more|
  {
    if more == [] {
      assert before + more == before;
    } else {
      RunMore(before, more);
      DisciplinedPrefix(before, more[..|more| - 1], key);
    }
  }

  /** It happens: after one `ensure`, one `reset` and one invalidation, the promise
      resolves with a load begun before the invalidation. */
  lemma {:induction false} LetGoPromiseResolvesStale(key: string) returns (steps: seq<Step>)
    requires key != ""
    ensures DisciplinedRun(steps, key) && Running(Run(steps), 0)
    ensures var after := LoadReturns(Run(steps), 0, Loaded, 1);
            0 in after.actives && after.actives[0].exited && after.actives[0].begun < LastInvalidated(Run(steps), key)
  {
    var none: seq<Step> := [];
    var one := none + [EnsureCalled(key, 1, 10)];
    RunSnoc(none, EnsureCalled(key, 1, 10));
    DisciplinedSnoc(none, EnsureCalled(key, 1, 10), key);
    RunSnoc(one, ResetCalled);
    DisciplinedSnoc(one, ResetCalled, key);
    RunSnoc(one + [ResetCalled], Invalidated(key));
    DisciplinedSnoc(one + [ResetCalled], Invalidated(key), key);
    steps := one + [ResetCalled] + [Invalidated(key)];
    FirstLoadGoesStale(key);
  }

  lemma FirstLoadGoesStale(key: string)
    requires key != ""
    ensures var first := Next(INITIAL, EnsureCalled(key, 1, 10));
            var s := Next(Next(first, ResetCalled), Invalidated(key));
            && ResetAllowed(first) && Running(s, 0)
            && var after := LoadReturns(s, 0, Loaded, 1);
               0 in after.actives && after.actives[0].exited && after.actives[0].begun < LastInvalidated(s, key)
  {
    var first := Next(INITIAL, EnsureCalled(key, 1, 10));
    assert first.actives == map[0 := Active(key, false, 1, 1, false)];
    var released := Next(first, ResetCalled);
    assert released.actives == first.actives && released.loadedProjectKey == "";
  }

  /** Conversely, an uninvalidated success is always committed. */
  lemma {:induction false} CurrentLoadIsCommitted(steps: seq<Step>, key: string, id: nat, now: nat)
    requires key != "" && DisciplinedRun(steps, key) && id in Run(steps).actives
    requires !Run(steps).actives[id].exited && Run(steps).actives[id].epoch == Run(steps).requestEpoch
    ensures var after := LoadReturns(Run(steps), id, Loaded, now);
            after.loadedProjectKey == key && after.updatedAt == now && after.fetched == Run(steps).actives[id].begun
  {
    RunKeepsInv(steps, key);
    assert ActiveOk(Run(steps), key, id);
  }

  lemma {:induction false} RunSnoc(steps: seq<Step>, step: Step)
    ensures Run(steps + [step]) == Next(Run(steps), step)
  {
    assert (steps + [step])[..|steps|] == steps;
  }

  lemma RepeatedUnseen(s: State, key: string, id: nat)
    requires key != "" && Inv(s, key) && s.inFlight == Some(id) && id in s.actives && s.actives[id].dirty && !s.actives[id].exited
    ensures var t := Next(Next(s, ResetCalled), LoadReplies(id, Loaded, 1));
            && id in t.actives && t.actives[id] == Active(key, false, s.requestEpoch + 2, s.tick + 1, false)
            && t.requestEpoch == s.requestEpoch + 2 && t.inFlight.None? && t.loadedProjectKey == "" && t.tick == s.tick + 2
  {
    assert ActiveOk(s, key, id);
  }

  lemma StaleCommit(t: State, key: string, id: nat)
    requires key != "" && id in t.actives && t.actives[id] == Active(key, false, t.requestEpoch, t.actives[id].begun, false)
    requires t.inFlight.None? && t.loadedProjectKey == "" && t.actives[id].begun < t.tick
    ensures var s := Next(Next(t, Invalidated(key)), LoadReplies(id, Loaded, 1));
            ServesCache(s, key, 1, 10) && s.fetched < LastInvalidated(s, key)
  {
  }

  /** The cache is set to serve data that has been invalidated. */
  predicate HoldsStale(s: State, key: string) {
    s.loadedProjectKey == key && s.updatedAt > 0 && s.fetched < LastInvalidated(s, key)
  }

  /** The calls after the first ones keep the discipline. */
  predicate DisciplinedAfter(before: seq<Step>, more: seq<Step>, key: string) {
    more == []
    || (&& DisciplinedAfter(before, more[..|more| - 1], key)
        && Disciplined(Run(before + more[..|more| - 1]), more[|more| - 1], key))
  }

  lemma {:induction false} DisciplinedJoin(before: seq<Step>, more: seq<Step>, key: string)
    requires DisciplinedRun(before, key) && DisciplinedAfter(before, more, key)
    ensures DisciplinedRun(before + more, key)
    decreases |more|
  {
    if more == [] {
      assert before + more == before;
    } else {
      DisciplinedJoin(before, more[..|more| - 1], key);
      DisciplinedLast(before, more, key);
    }
  }

  lemma {:induction false} DisciplinedLast(before: seq<Step>, more: seq<Step>, key: string)
    requires more != [] && DisciplinedRun(before + more[..|more| - 1], key)
    requires Disciplined(Run(before + more[..|more| - 1]), more[|more| - 1], key)
    ensures DisciplinedRun(before + more, key)
  {
    assert (before + more)[..|before + more| - 1] == before + more[..|more| - 1];
  }

  lemma {:induction false} DisciplinedMore(before: seq<Step>, more: seq<Step>, step: Step, key: string)
    requires DisciplinedAfter(before, more, key) && Disciplined(Run(before + more), step, key)
    ensures DisciplinedAfter(before, more + [step], key)
  {
    assert (more + [step])[..|more|] == more;
  }

  lemma {:induction false} RunLast(before: seq<Step>, more: seq<Step>)
    requires more != []
    ensures Run(before + more) == Next(Run(before + more[..|more| - 1]), more[|more| - 1])
  {
    assert (before + more)[..|before + more| - 1] == before + more[..|more| - 1];
  }

  lemma {:induction false} ThreeMore(before: seq<Step>, a: Step, b: Step, c: Step)
    ensures Run(before + [a, b, c]) == Next(Next(Next(Run(before), a), b), c)
  {
    assert [a, b, c][..2] == [a, b] && [a, b][..1] == [a] && [a][..0] == [] && before + [] == before;
    RunLast(before, [a]);
    RunLast(before, [a, b]);
    RunLast(before, [a, b, c]);
  }

  // Replies, and invalidations of the one key, always keep the discipline.
  lemma {:induction false} RepliesAreDisciplined(before: seq<Step>, reply: Step, key: string)
    requires reply.LoadReplies?
    ensures DisciplinedAfter(before, [reply, Invalidated(key), reply], key)
  {
    var none: seq<Step> := [];
    DisciplinedMore(before, none, reply, key);
    DisciplinedMore(before, none + [reply], Invalidated(key), key);
    DisciplinedMore(before, none + [reply] + [Invalidated(key)], reply, key);
    assert none + [reply] + [Invalidated(key)] + [reply] == [reply, Invalidated(key), reply];
  }

  /** A `reset` that lets go of a promise about to repeat its load can always be
      followed by stale data. The load is repeated unseen, the next invalidation finds
      neither a loaded key nor a load in flight, and the repeated load still commits. */
  lemma {:induction false} ResetDuringDirtyLoadIsUnsafe(steps: seq<Step>, key: string) returns (more: seq<Step>)
    requires key != "" && DisciplinedRun(steps, key) && !ResetAllowed(Run(steps))
    ensures DisciplinedAfter(steps + [ResetCalled], more, key) && HoldsStale(Run(steps + [ResetCalled] + more), key)
  {
    var id := Run(steps).inFlight.value;
    var reply := LoadReplies(id, Loaded, 1);
    RunKeepsInv(steps, key);
    RepeatedUnseen(Run(steps), key, id);
    RunSnoc(steps, ResetCalled);
    StaleCommit(Next(Run(steps + [ResetCalled]), reply), key, id);
    ThreeMore(steps + [ResetCalled], reply, Invalidated(key), reply);
    RepliesAreDisciplined(steps + [ResetCalled], reply, key);
    more := [reply, Invalidated(key), reply];
  }

  /** The discipline is exactly what is needed: in a disciplined run a `reset` is safe,
      that is, no disciplined continuation makes the cache hold stale data, if and only
      if the promise in flight is not about to repeat its load. */
  lemma {:induction false} ResetIsSafeIff(steps: seq<Step>, key: string)
    requires key != "" && DisciplinedRun(steps, key)
    ensures ResetAllowed(Run(steps)) <==>
            forall more :: DisciplinedAfter(steps + [ResetCalled], more, key) ==> !HoldsStale(Run(steps + [ResetCalled] + more), key)
  {
    if ResetAllowed(Run(steps)) {
      DisciplinedSnoc(steps, ResetCalled, key);
      forall more | DisciplinedAfter(steps + [ResetCalled], more, key)
        ensures !HoldsStale(Run(steps + [ResetCalled] + more), key)
      {
        DisciplinedJoin(steps + [ResetCalled], more, key);
        RunKeepsInv(steps + [ResetCalled] + more, key);
      }
    } else {
      var more := ResetDuringDirtyLoadIsUnsafe(steps, key);
    }
  }

  lemma {:induction false} DisciplinedSnoc(steps: seq<Step>, step: Step, key: string)
    requires DisciplinedRun(steps, key) && Disciplined(Run(steps), step, key)
    ensures DisciplinedRun(steps + [step], key)
  {
    assert (steps + [step])[..|steps|] == steps;
  }

  /** Such a state is reached by one `ensure` and one invalidation. */
  lemma {:induction false} DirtyLoadIsReachable(key: string)
    requires key != ""
    ensures var steps := [] + [EnsureCalled(key, 1, 10)] + [Invalidated(key)];
            && DisciplinedRun(steps, key) && Run(steps).inFlight == Some(0) && 0 in Run(steps).actives
            && Run(steps).actives[0].dirty && !Run(steps).actives[0].exited
  {
    var none: seq<Step> := [];
    var one := none + [EnsureCalled(key, 1, 10)];
    RunSnoc(none, EnsureCalled(key, 1, 10));
    DisciplinedSnoc(none, EnsureCalled(key, 1, 10), key);
    RunSnoc(one, Invalidated(key));
    DisciplinedSnoc(one, Invalidated(key), key);
  }

  // ---- what each call does --------------------------------------------------------------

  /** The promise in flight exists; ids and epochs are those given out so far. */
  ghost predicate Sound(s: State) {
    && (s.inFlight.Some? ==> s.inFlight.value in s.actives)
    && (forall id :: id in s.actives ==> id < s.nextId && s.actives[id].epoch <= s.requestEpoch)
  }

  lemma NextKeepsSound(s: State, step: Step)
    requires Sound(s)
    ensures Sound(Next(s, step))
  {
    match step
    case EnsureCalled(_, _, _) =>
    case LoadReplies(id, _, _) =>
    case PromiseSettles(id) =>
    case Invalidated(key) => if Joins(s, key) { assert s.inFlight.value in s.actives; }
    case ResetCalled =>
  }

  lemma {:induction false} RunIsSound(steps: seq<Step>)
    ensures Sound(Run(steps))
    decreases |steps|
  {
    if steps != [] {
      RunIsSound(steps[..|steps| - 1]);
      NextKeepsSound(Run(steps[..|steps| - 1]), steps[|steps| - 1]);
    }
  }

  /** Over every run: `ensure` starts a load, if and only if the data shown is not of the
      key, has been invalidated or is as old as the time to live, and no promise of the key
      is in flight. The load begins now, under a new epoch, and is in flight. */
  lemma {:induction false} EnsureStartsIff(steps: seq<Step>, key: string, now: nat, ttl: nat)
    ensures var s, s' := Run(steps), Ensure(Run(steps), key, now, ttl);
            && (s.inFlight.Some? ==> s.inFlight.value in s.actives)
            && var young := s.loadedProjectKey == key && s.updatedAt != 0 && now < s.updatedAt + ttl;
               var joined := s.inFlight.Some? && s.actives[s.inFlight.value].key == key;
               if young || joined then s' == s
               else && s'.inFlight == Some(s.nextId) && s.nextId !in s.actives && s.nextId in s'.actives
                    && var a := s'.actives[s.nextId];
                       a.key == key && !a.dirty && !a.exited && a.begun == s.tick && a.epoch == s'.requestEpoch > s.requestEpoch
  {
    RunIsSound(steps);
  }

  /** A reply is committed if and only if it is a success under the current epoch. The loop
      goes round, with a load that begins now, if and only if it was invalidated and the
      reply is no error; otherwise it ends. */
  lemma ReplyMeans(s: State, id: nat, reply: Reply, now: nat)
    requires id in s.actives && !s.actives[id].exited
    ensures var a, s' := s.actives[id], LoadReturns(s, id, reply, now);
            && (if reply == Loaded && a.epoch == s.requestEpoch
                then s'.loadedProjectKey == a.key && s'.updatedAt == now && s'.fetched == a.begun
                else s'.loadedProjectKey == s.loadedProjectKey && s'.updatedAt == s.updatedAt && s'.fetched == s.fetched)
            && id in s'.actives && s'.actives[id].key == a.key && s'.inFlight == s.inFlight
            && (if a.dirty && reply != Rejected
                then && !s'.actives[id].exited && !s'.actives[id].dirty && s'.actives[id].begun == s.tick
                     && s'.actives[id].epoch == s'.requestEpoch > s.requestEpoch
                else s'.actives[id].exited && s'.requestEpoch == s.requestEpoch)
  {
  }

  /** An invalidated key is not served from cache, and its promise in flight repeats its
      load with the next reply that is no error. */
  lemma {:induction false} InvalidateMeans(steps: seq<Step>, key: string, now: nat, reply: Reply)
    ensures var s, s' := Run(steps), Invalidate(Run(steps), key);
            && (s'.loadedProjectKey == key ==> s'.updatedAt == 0)
            && (s.loadedProjectKey != key && !Joins(s, key) ==> s'.requestEpoch == s.requestEpoch && s'.updatedAt == s.updatedAt)
            && (Joins(s, key) && Running(s, s.inFlight.value) && reply != Rejected ==>
                  var id := s.inFlight.value;
                  var t := LoadReturns(s', id, reply, now);
                  Running(t, id) && t.actives[id].begun == s.tick && t.updatedAt == 0)
  {
    RunIsSound(steps);
  }

  /** A settled promise is no longer in flight; another one stays. */
  lemma SettleMeans(s: State, id: nat)
    requires id in s.actives && s.actives[id].exited
    ensures var s' := Settle(s, id);
            && id !in s'.actives && s'.inFlight != Some(id)
            && (s.inFlight != Some(id) ==> s'.inFlight == s.inFlight) && s'.loadedProjectKey == s.loadedProjectKey
  {
  }

  datatype ResourceKind = Wiki | Exports | ChatSessions | Graph | LintIgnores | LintHistory | SettingsChatAuthorization

  // ---- the controller object --------------------------------------------------------------

  /** `createProjectResourceController`. The logical clock stands for the order of
      calls; the promises' loops advance in `OnLoad` and `OnSettled`. */
  class ProjectResourceController {
    const ttl: nat
    var requestEpoch: nat
    var inFlight: Option<nat>
    var actives: map<nat, Active>
    var nextId: nat
    var loadedProjectKey: string
    var updatedAt: nat
    var fetched: nat
    var tick: nat
    var invalidated: map<string, nat>

    ghost function Model(): State
      reads this
    {
      State(requestEpoch, inFlight, actives, nextId, loadedProjectKey, updatedAt, fetched, tick, invalidated)
    }

    constructor (kind: ResourceKind)
      ensures Model() == INITIAL
      ensures kind == Graph ==> ttl == 60000
      ensures kind == SettingsChatAuthorization ==> ttl == 30000
      ensures kind !in {Graph, SettingsChatAuthorization} ==> ttl == 15000
    {
      ttl := if kind.Graph? then 60000 else if kind.SettingsChatAuthorization? then 30000 else 15000;
      requestEpoch, inFlight, actives, nextId, loadedProjectKey, updatedAt := 0, None, map[], 0, "", 0;
      fetched, tick, invalidated := 0, 1, map[];
    }

    /** Returns the promise to await, or none when the cache answers. */
    method EnsureFresh(key: string, now: nat) returns (promise: Option<nat>)
      modifies this
      ensures Model() == Next(old(Model()), EnsureCalled(key, now, ttl))
      ensures promise.None? <==> ServesCache(old(Model()), key, now, ttl)
      ensures promise.Some? ==> Joins(Model(), key) && inFlight == promise
    {
      if loadedProjectKey == key && updatedAt > 0 && now as int - updatedAt as int < ttl {
        promise := None;
      } else if inFlight.Some? && inFlight.value in actives && actives[inFlight.value].key == key {
        promise := inFlight;
      } else {
        requestEpoch := requestEpoch + 1;
        actives := actives[nextId := Active(key, false, requestEpoch, tick, false)];
        inFlight := Some(nextId);
        nextId := nextId + 1;
        promise := inFlight;
      }
      tick := tick + 1;
    }

    /** One turn of the `do`/`while` loop of a promise. */
    method OnLoad(id: nat, reply: Reply, now: nat)
      requires id in actives && !actives[id].exited
      modifies this
      ensures Model() == Next(old(Model()), LoadReplies(id, reply, now))
    {
      var a := actives[id];
      if reply.Loaded? && a.epoch == requestEpoch {
        loadedProjectKey, updatedAt, fetched := a.key, now, a.begun;
      }
      if a.dirty && !reply.Rejected? {
        requestEpoch := requestEpoch + 1;
        actives := actives[id := Active(a.key, false, requestEpoch, tick, false)];
      } else {
        actives := actives[id := a.(exited := true)];
      }
      tick := tick + 1;
    }

    method OnSettled(id: nat)
      requires id in actives && actives[id].exited
      modifies this
      ensures Model() == Next(old(Model()), PromiseSettles(id))
    {
      if inFlight == Some(id) { inFlight := None; }
      actives := actives - {id};
      tick := tick + 1;
    }

    /** Reports whether a load in flight was made to repeat. */
    method InvalidateKey(key: string) returns (repeats: bool)
      modifies this
      ensures Model() == Next(old(Model()), Invalidated(key))
      ensures repeats <==> Joins(old(Model()), key)
    {
      invalidated := invalidated[key := tick];
      tick := tick + 1;
      var joined := inFlight.Some? && inFlight.value in actives && actives[inFlight.value].key == key;
      if loadedProjectKey != key && !joined { return false; }
      requestEpoch := requestEpoch + 1;
      updatedAt := 0;
      if joined {
        actives := actives[inFlight.value := actives[inFlight.value].(dirty := true)];
      }
      return joined;
    }

    method ResetAll()
      modifies this
      ensures Model() == Next(old(Model()), ResetCalled)
    {
      inFlight := None;
      loadedProjectKey := "";
      requestEpoch := requestEpoch + 1;
      tick := tick + 1;
    }
  }
}
