/** Stale replies are never stored, current ones always are, and entries are bounded
    (`src/stores/projectFactsStore.ts`). */
module FactsFreshness {
  import opened Common
  import opened Paths
  import opened ProjectFacts

  /** The touch of a project pushes another one out. */
  predicate PushesOut(s: State, touched: Key, key: Key) {
    key != touched && key in s.entries && key !in LastThree(Without(s.order, touched) + [touched])
  }

  /** The events that make running requests of a slot out of date: invalidation, forced
      refresh, rebinding to another authority, switching away from the project, and
      eviction. */
  predicate Overtakes(s: State, step: Step, slot: Slot) {
    match step
    case EnsureStep(x, force, _) => (x == slot && force) || PushesOut(s, x.key, slot.key)
    case ReplyStep(_, _, _) => false
    case SettleStep(_) => false
    case InvalidateStep(x) => x == slot && slot.key in s.entries
    case BindStep(key, authority) =>
      || (key == slot.key && (if key in s.entries then s.entries[key].authority else None) != authority)
      || PushesOut(s, key, slot.key)
    case PruneStep(active) =>
      || (s.active == Some(slot.key) && active != s.active)
      || (slot.key in s.entries && slot.key !in PrunedOrder(s, active))
  }

  lemma TouchMarks(s: State, key: Key, slot: Slot)
    ensures Touch(s, key).sent == s.sent && Touch(s, key).flying == s.flying && Touch(s, key).active == s.active
    ensures Mark(Touch(s, key).overtaken, slot) == if PushesOut(s, key, slot.key) then |s.sent| else Mark(s.overtaken, slot)
  {
    var order := LastThree(Without(s.order, key) + [key]);
    var entries := if key in s.entries then s.entries else s.entries[key := CreateEntry(None)];
    MarkAllAt(s.overtaken, entries.Keys - Elements(order), |s.sent|, slot);
    assert (Without(s.order, key) + [key])[|Without(s.order, key)|] == key;
    assert key in order;
  }

  lemma TouchKeepsEntry(s: State, key: Key)
    ensures key in Touch(s, key).entries
    ensures Touch(s, key).entries[key] == if key in s.entries then s.entries[key] else CreateEntry(None)
  {
    assert (Without(s.order, key) + [key])[|Without(s.order, key)|] == key;
    assert key in LastThree(Without(s.order, key) + [key]);
  }

  lemma SwitchMarks(s: State, active: Option<Key>, slot: Slot)
    ensures var s1 := SwitchTo(s, active);
            && s1.entries.Keys == s.entries.Keys && s1.order == s.order && s1.sent == s.sent && s1.flying == s.flying
            && Mark(s1.overtaken, slot)
               == if s.active == Some(slot.key) && active != s.active then |s.sent| else Mark(s.overtaken, slot)
  {
    if s.active.Some? { MarkAllAt(s.overtaken, {s.active.value}, |s.sent|, slot); }
  }

  lemma PruneMarks(s: State, active: Option<Key>, slot: Slot)
    ensures Mark(Prune(s, active).overtaken, slot)
         == if Overtakes(s, PruneStep(active), slot) then |s.sent| else Mark(s.overtaken, slot)
    ensures Prune(s, active).sent == s.sent
  {
    SwitchMarks(s, active, slot);
    var s1 := SwitchTo(s, active);
    var order := PrunedOrder(s1, active);
    assert order == PrunedOrder(s, active);
    MarkAllAt(s1.overtaken, s1.entries.Keys - Elements(order), |s.sent|, slot);
  }

  lemma EnsureMarks(s: State, x: Slot, force: bool, now: int, slot: Slot)
    ensures Mark(Ensure(s, x, force, now).overtaken, slot)
         == if Overtakes(s, EnsureStep(x, force, now), slot) then |s.sent| else Mark(s.overtaken, slot)
    ensures s.sent <= Ensure(s, x, force, now).sent
  {
    TouchMarks(s, x.key, slot);
    EnsureTouchedMarks(WithControl(Touch(s, x.key), x), x, force, now, slot);
  }

  lemma EnsureTouchedMarks(s: State, x: Slot, force: bool, now: int, slot: Slot)
    requires x in s.controls
    ensures Mark(EnsureTouched(s, x, force, now).overtaken, slot) == if x == slot && force then |s.sent| else Mark(s.overtaken, slot)
    ensures s.sent <= EnsureTouched(s, x, force, now).sent
  {
  }

  lemma BindMarks(s: State, key: Key, authority: Option<string>, slot: Slot)
    ensures Mark(Bind(s, key, authority).overtaken, slot)
         == if Overtakes(s, BindStep(key, authority), slot) then |s.sent| else Mark(s.overtaken, slot)
    ensures Bind(s, key, authority).sent == s.sent
  {
    TouchMarks(s, key, slot);
    TouchKeepsEntry(s, key);
    MarkAllAt(Touch(s, key).overtaken, {key}, |s.sent|, slot);
  }

  lemma ReplyMarks(s: State, id: RequestId, ok: bool, now: int)
    ensures Reply(s, id, ok, now).overtaken == s.overtaken && s.sent <= Reply(s, id, ok, now).sent
  {
  }

  lemma SettleMarks(s: State, slot: Slot)
    ensures Settle(s, slot).overtaken == s.overtaken && Settle(s, slot).sent == s.sent
  {
  }

  lemma InvalidateMarks(s: State, x: Slot, slot: Slot)
    ensures Mark(Invalidate(s, x).overtaken, slot)
         == if Overtakes(s, InvalidateStep(x), slot) then |s.sent| else Mark(s.overtaken, slot)
    ensures Invalidate(s, x).sent == s.sent
  {
  }

  /** The marks record exactly the events. */
  lemma OvertakenMeans(s: State, step: Step, slot: Slot)
    ensures Mark(Next(s, step).overtaken, slot) == if Overtakes(s, step, slot) then |s.sent| else Mark(s.overtaken, slot)
    ensures s.sent <= Next(s, step).sent
  {
    match step
    case EnsureStep(x, force, now) => EnsureMarks(s, x, force, now, slot);
    case BindStep(key, authority) => BindMarks(s, key, authority, slot);
    case PruneStep(active) => PruneMarks(s, active, slot);
    case ReplyStep(id, ok, now) => ReplyMarks(s, id, ok, now);
    case SettleStep(x) => SettleMarks(s, x);
    case InvalidateStep(x) => InvalidateMarks(s, x, slot);
  }

  /** Nothing overtook the slot between two points of a trace. */
  predicate Undisturbed(trace: seq<State>, steps: seq<Step>, begin: nat, end: nat, slot: Slot)
    requires |trace| == |steps| + 1 && begin <= end <= |steps|
    decreases end
  {
    begin == end || (Undisturbed(trace, steps, begin, end - 1, slot) && !Overtakes(trace[end - 1], steps[end - 1], slot))
  }

  lemma {:induction false} MarkTellsDisturbance(trace: seq<State>, steps: seq<Step>, begin: nat, end: nat, slot: Slot, id: RequestId)
    requires IsPath(Next, trace, steps) && begin <= end <= |steps|
    requires id < |trace[begin].sent| && Mark(trace[begin].overtaken, slot) <= id
    ensures Mark(trace[end].overtaken, slot) <= id <==> Undisturbed(trace, steps, begin, end, slot)
    ensures trace[begin].sent <= trace[end].sent
    decreases end
  {
    if begin < end {
      MarkTellsDisturbance(trace, steps, begin, end - 1, slot, id);
      OvertakenStep(trace, steps, end - 1, slot, id);
    }
  }

  lemma {:induction false} OvertakenStep(trace: seq<State>, steps: seq<Step>, i: nat, slot: Slot, id: RequestId)
    requires IsPath(Next, trace, steps) && i < |steps| && id < |trace[i].sent|
    ensures Mark(trace[i + 1].overtaken, slot) <= id <==> Mark(trace[i].overtaken, slot) <= id && !Overtakes(trace[i], steps[i], slot)
    ensures trace[i].sent <= trace[i + 1].sent
  {
    OvertakenMeans(trace[i], steps[i], slot);
    assert trace[i + 1] == Next(trace[i], steps[i]);
  }

  // A request that has just been sent is not overtaken.
  lemma {:induction false} JustSent(trace: seq<State>, steps: seq<Step>, i: nat, slot: Slot)
    requires IsPath(Next, trace, steps) && i < |steps| && Inv(trace[i])
    ensures Mark(trace[i + 1].overtaken, slot) <= |trace[i].sent|
  {
    OvertakenMeans(trace[i], steps[i], slot);
    assert SlotOk(trace[i], slot);
    assert trace[i + 1] == Next(trace[i], steps[i]);
  }

  /** In one state: a successful reply is stored as ready exactly if its request has
      not been overtaken, and otherwise changes no value. */
  lemma ReplyIsStoredIffCurrent(s: State, id: RequestId, now: int)
    requires Inv(s) && id in s.flying
    ensures id < |s.sent|
    ensures var slot := s.sent[id].slot;
            var r := ResourceAt(Reply(s, id, true, now), slot);
            && (Mark(s.overtaken, slot) <= id <==> r.value == Some(id))
            && (r.value == Some(id) ==> r.status == Ready && r.updatedAt == Some(now))
            && (r.value != Some(id) ==> r.value == ResourceAt(s, slot).value)
  {
    assert FlyingOk(s, id);
    var slot := s.sent[id].slot;
    assert SlotOk(s, slot);
    ReplyIsLandedThenContinued(s, id, true, now);
  }

  /** Over every run: let step `at` send a request. When its successful reply arrives
      in a later state, the value is stored as ready if and only if no invalidation,
      forced refresh, rebinding, switch-away or eviction of its slot happened since. */
  lemma {:induction false} StoredIffUndisturbed(trace: seq<State>, steps: seq<Step>, at: nat, arrival: nat, id: RequestId, now: int)
    requires IsPath(Next, trace, steps) && trace[0] == START && at < arrival <= |steps|
    requires id == |trace[at].sent| < |trace[at + 1].sent| && id in trace[arrival].flying
    ensures id < |trace[arrival].sent|
    ensures var slot := trace[arrival].sent[id].slot;
            var r := ResourceAt(Reply(trace[arrival], id, true, now), slot);
            (r.value == Some(id) && r.status == Ready) <==> Undisturbed(trace, steps, at + 1, arrival, slot)
  {
    RunKeepsInv(trace, steps, at);
    RunKeepsInv(trace, steps, arrival);
    ReplyIsStoredIffCurrent(trace[arrival], id, now);
    var slot := trace[arrival].sent[id].slot;
    JustSent(trace, steps, at, slot);
    MarkTellsDisturbance(trace, steps, at + 1, arrival, slot, id);
  }

  /** A failed reply stores nothing. */
  lemma FailedReplyStoresNothing(s: State, id: RequestId, now: int)
    requires Inv(s) && id in s.flying && id < |s.sent|
    ensures ResourceAt(Reply(s, id, false, now), s.sent[id].slot).value == ResourceAt(s, s.sent[id].slot).value
  {
    assert FlyingOk(s, id);
    ReplyIsLandedThenContinued(s, id, false, now);
  }

  /** What is shown as ready was requested after the last invalidation or rebinding. */
  lemma ReadyIsCurrent(s: State, slot: Slot)
    requires Reachable(s) && ResourceAt(s, slot).status.Ready?
    ensures var r := ResourceAt(s, slot);
            r.value.Some? && Mark(s.invalidated, slot) <= r.value.value < |s.sent|
            && s.sent[r.value.value].slot == slot
  {
    ReachableIsInv(s);
    assert SlotOk(s, slot);
  }

  // ---- requests and retention ---------------------------------------------------------------------------

  /** At most one request is in flight per project and kind, and its entry and control
      are kept. */
  lemma OneRequestPerSlot(s: State, a: RequestId, b: RequestId)
    requires Reachable(s) && a in s.flying && b in s.flying
    ensures a < |s.sent| && b < |s.sent|
    ensures s.sent[a].slot == s.sent[b].slot ==> a == b
    ensures s.sent[a].slot in s.controls && s.sent[a].slot.key in s.entries
  {
    ReachableIsInv(s);
    assert FlyingOk(s, a) && FlyingOk(s, b);
    assert SlotOk(s, s.sent[a].slot);
  }

  /** At most three projects are kept by access order, each with an entry; every other
      entry has an unfinished request or is the active project. */
  lemma RetentionIsBounded(s: State, key: Key)
    requires Reachable(s)
    ensures OrderOk(s) && RetainedOk(s, key)
  {
    ReachableIsInv(s);
  }

  /** A refresh asked for while a request runs is sent as soon as that one returns. */
  lemma PendingRefreshIsSent(s: State, slot: Slot, ok: bool, now: int)
    requires Reachable(s) && slot in s.controls
    requires var c := s.controls[slot];
             c.activity.Running? && !c.retireWhenIdle && (c.pendingForce || c.pendingRefresh)
    ensures var s' := Reply(s, s.controls[slot].activity.request, ok, now);
            && s'.sent == s.sent + [Request(slot, s.controls[slot].desired, s.controls[slot].pendingForce)]
            && |s.sent| in s'.flying && Mark(s'.overtaken, slot) <= |s.sent|
  {
    ReachableIsInv(s);
    assert SlotOk(s, slot);
    var id := s.controls[slot].activity.request;
    ReplyIsLandedThenContinued(s, id, ok, now);
    var t := Landed(s, id, ok, now);
    assert Reply(s, id, ok, now) == Send(t, slot);
  }

  /** In the window between the end of the loop and the clearing of its promise, a
      forced refresh is joined to the finished loop: nothing is sent and the old value
      keeps its status. */
  lemma ForcedRefreshInWindowIsLost(s: State, slot: Slot, now: int)
    requires Reachable(s) && slot in s.controls && s.controls[slot].activity.Exited?
    ensures var s' := Settle(Ensure(s, slot, true, now), slot);
            && s'.sent == s.sent && s'.flying == s.flying
            && slot in s'.controls && s'.controls[slot].activity.Resting?
            && ResourceAt(s', slot) == ResourceAt(s, slot)
  {
    ReachableIsInv(s);
    assert SlotOk(s, slot);
    TouchMarks(s, slot.key, slot);
    TouchKeepsEntry(s, slot.key);
    TouchClearsFlag(s, slot);
    var t := Touch(s, slot.key);
    TouchKeepsControl(s, slot);
    assert WithControl(t, slot) == t;
  }

  lemma TouchKeepsControl(s: State, slot: Slot)
    requires slot in s.controls
    ensures slot in Touch(s, slot.key).controls
    ensures Touch(s, slot.key).controls[slot] == s.controls[slot].(retireWhenIdle := false)
  {
    assert (Without(s.order, slot.key) + [slot.key])[|Without(s.order, slot.key)|] == slot.key;
    assert slot.key in LastThree(Without(s.order, slot.key) + [slot.key]);
  }

  /** The forced refresh has been sent, or will be as soon as the running request
      returns. */
  predicate Taken(s: State, s': State, slot: Slot) {
    && slot in s'.controls && s'.controls[slot].activity.Running? && !s'.controls[slot].retireWhenIdle
    && (|| s'.controls[slot].pendingForce
        || (|s'.sent| == |s.sent| + 1 && s'.sent[|s.sent|].slot == slot && s'.sent[|s.sent|].force && |s.sent| in s'.flying))
  }

  /** A forced refresh is sent or pending, if and only if it does not fall into the
      window; the first request of a slot and one after retirement included. */
  lemma ForcedRefreshIsTakenIff(s: State, slot: Slot, now: int)
    requires Reachable(s)
    ensures Taken(s, Ensure(s, slot, true, now), slot) <==> !(slot in s.controls && s.controls[slot].activity.Exited?)
  {
    ReachableIsInv(s);
    TouchMarks(s, slot.key, slot);
    if slot in s.controls { TouchKeepsControl(s, slot); } else { TouchAddsNoControl(s, slot); }
  }

  lemma TouchAddsNoControl(s: State, slot: Slot)
    requires slot !in s.controls
    ensures slot !in Touch(s, slot.key).controls
  {
  }

  lemma FirstEnsure(slot: Slot, now: int)
    ensures var s := Ensure(START, slot, false, now);
            && s.sent == [Request(slot, 1, false)] && s.flying == {0}
            && slot in s.controls && s.controls[slot] == NewControl(0).(desired := 1, activity := Running(0, 1))
            && slot.key in s.entries && ResourceAt(s, slot) == Resource(None, Loading, None, 1)
  {
    TouchKeepsEntry(START, slot.key);
    var t := Touch(START, slot.key);
    assert t.controls == map[] && t.sent == [] && t.flying == {};
    var u := WithControl(t, slot);
    assert u.controls[slot] == NewControl(0) && ResourceAt(u, slot) == EMPTY_RESOURCE;
    PutResourceIsLocal(PutControl(u, slot, NewControl(0).(desired := 1)), slot, Resource(None, Loading, None, 1), slot);
  }

  /** The window is reached by the first successful request. */
  lemma WindowIsReachable(slot: Slot, now: int) returns (s: State)
    ensures Reachable(s) && slot in s.controls && s.controls[slot].activity.Exited? && !s.controls[slot].retireWhenIdle
    ensures ResourceAt(s, slot) == Resource(Some(0), Ready, Some(now), 1)
  {
    var first, reply := EnsureStep(slot, false, now), ReplyStep(0, true, now);
    LeadsStart(Next, START);
    LeadsOn(Next, START, START, first);
    var sent := Ensure(START, slot, false, now);
    LeadsOn(Next, START, sent, reply);
    FirstEnsure(slot, now);
    FirstReply(sent, slot, now);
    s := Reply(sent, 0, true, now);
  }

  lemma FirstReply(s: State, slot: Slot, now: int)
    requires s.sent == [Request(slot, 1, false)] && s.flying == {0}
    requires slot in s.controls && s.controls[slot] == NewControl(0).(desired := 1, activity := Running(0, 1))
    requires slot.key in s.entries && ResourceAt(s, slot) == Resource(None, Loading, None, 1)
    ensures var s' := Reply(s, 0, true, now);
            && slot in s'.controls && s'.controls[slot].activity.Exited? && !s'.controls[slot].retireWhenIdle
            && ResourceAt(s', slot) == Resource(Some(0), Ready, Some(now), 1)
  {
    ReplyIsLandedThenContinued(s, 0, true, now);
  }
}
