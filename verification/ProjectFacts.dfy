/** Project facts coordinator (`src/stores/projectFactsStore.ts`).

    Facts about a project are fetched by asynchronous requests, one control per
    project and kind. Controls count generations: whatever makes a running request
    out of date raises the desired generation, and a reply is stored only if its
    generation is still the desired one. Entries are kept for the three projects used
    last and for as long as one of their requests runs. */
module ProjectFacts {
  import opened Common
  import opened Paths

  type Key = string

  datatype Kind = Git | Agents | Providers

  datatype Slot = Slot(key: Key, kind: Kind)

  datatype Status = IdleStatus | Loading | Ready | Stale | ErrorStatus

  /** Requests are numbered in the order they are sent. */
  type RequestId = nat

  /** `FactResource`; a value is named by the request that fetched it. */
  datatype Resource = Resource(value: Option<RequestId>, status: Status, updatedAt: Option<int>, requestEpoch: nat)

  datatype Entry = Entry(authority: Option<string>, git: Resource, agents: Resource, providers: Resource)

  /** `activePromise` with `activeGeneration`. `Exited`: the request loop has ended
      but its promise has not been cleared. */
  datatype Activity = Resting | Running(request: RequestId, generation: nat) | Exited

  datatype Control = Control(
    desired: nat,
    completed: nat,
    activity: Activity,
    pendingRefresh: bool,
    pendingForce: bool,
    retryAt: Option<int>,
    failures: nat,
    retireWhenIdle: bool)

  datatype Request = Request(slot: Slot, generation: nat, force: bool)

  /** The store and the module's variables, with the requests sent so far, those
      still unanswered, and for each slot the number of requests sent when it was
      last overtaken and when it was last invalidated or rebound. */
  datatype State = State(
    entries: map<Key, Entry>,
    order: seq<Key>,
    controls: map<Slot, Control>,
    active: Option<Key>,
    sent: seq<Request>,
    flying: set<RequestId>,
    overtaken: map<Slot, nat>,
    invalidated: map<Slot, nat>)

  const START := State(map[], [], map[], None, [], {}, map[], map[])

  const MAX_ENTRIES := 3

  function Ttl(kind: Kind): int { if kind.Git? then 5000 else 30000 }

  /** `PROJECT_FACT_RETRY_DELAYS_MS`. */
  function RetryDelay(failures: nat): int {
    if failures == 0 then 5000 else if failures == 1 then 30000 else 120000
  }

  const EMPTY_RESOURCE := Resource(None, IdleStatus, None, 0)

  function CreateEntry(authority: Option<string>): Entry {
    Entry(authority, EMPTY_RESOURCE, EMPTY_RESOURCE, EMPTY_RESOURCE)
  }

  function Fact(e: Entry, kind: Kind): Resource {
    match kind case Git => e.git case Agents => e.agents case Providers => e.providers
  }

  function WithFact(e: Entry, kind: Kind, r: Resource): Entry {
    match kind case Git => e.(git := r) case Agents => e.(agents := r) case Providers => e.(providers := r)
  }

  function ResourceAt(s: State, slot: Slot): Resource {
    if slot.key in s.entries then Fact(s.entries[slot.key], slot.kind) else EMPTY_RESOURCE
  }

  /** `updateResource`. */
  function PutResource(s: State, slot: Slot, r: Resource): State {
    if slot.key in s.entries
    then s.(entries := s.entries[slot.key := WithFact(s.entries[slot.key], slot.kind, r)]) else s
  }

  function PutControl(s: State, slot: Slot, c: Control): State {
    s.(controls := s.controls[slot := c])
  }

  function Mark(m: map<Slot, nat>, slot: Slot): nat { if slot in m then m[slot] else 0 }

  function SlotsOf(keys: set<Key>): set<Slot> {
    set k, kind | k in keys && kind in {Git, Agents, Providers} :: Slot(k, kind)
  }

  function MarkAll(m: map<Slot, nat>, slots: set<Slot>, n: nat): map<Slot, nat> {
    m + map slot | slot in slots :: n
  }

  function Overtake(s: State, keys: set<Key>): State {
    s.(overtaken := MarkAll(s.overtaken, SlotsOf(keys), |s.sent|))
  }

  predicate Active(controls: map<Slot, Control>, slot: Slot) {
    slot in controls && !controls[slot].activity.Resting?
  }

  predicate Busy(controls: map<Slot, Control>, key: Key) {
    Active(controls, Slot(key, Git)) || Active(controls, Slot(key, Agents)) || Active(controls, Slot(key, Providers))
  }

  // ---- retirement --------------------------------------------------------------------

  function RetiredControl(c: Control): Control {
    c.(retireWhenIdle := true, pendingRefresh := false, pendingForce := false, desired := c.desired + 1)
  }

  /** `retireEntry` for each of the keys: running controls are told to stop; where
      none runs, the controls go. */
  function RetireControls(controls: map<Slot, Control>, keys: set<Key>): map<Slot, Control> {
    map slot | slot in controls && (slot.key in keys ==> Busy(controls, slot.key)) ::
      if slot.key in keys && Active(controls, slot) then RetiredControl(controls[slot]) else controls[slot]
  }

  /** Entries outside `keep` are retired, and dropped unless a request runs. */
  function Retire(s: State, keep: set<Key>): State {
    var gone := s.entries.Keys - keep;
    Overtake(s.(controls := RetireControls(s.controls, gone),
                entries := map k | k in s.entries && (k in keep || Busy(s.controls, k)) :: s.entries[k]), gone)
  }

  function Restrict(s: seq<Key>, keep: set<Key>): seq<Key> {
    if s == [] then [] else (if s[0] in keep then [s[0]] else []) + Restrict(s[1..], keep)
  }

  function LastThree(s: seq<Key>): seq<Key> {
    if |s| <= MAX_ENTRIES then s else s[|s| - MAX_ENTRIES..]
  }

  function ClearRetire(controls: map<Slot, Control>, key: Key): map<Slot, Control> {
    map slot | slot in controls ::
      if slot.key == key then controls[slot].(retireWhenIdle := false) else controls[slot]
  }

  /** `touchEntry`. */
  function Touch(s: State, key: Key): State {
    var order := LastThree(Without(s.order, key) + [key]);
    var entries := if key in s.entries then s.entries else s.entries[key := CreateEntry(None)];
    Retire(s.(entries := entries, controls := ClearRetire(s.controls, key), order := order), Elements(order))
  }

  // ---- requests ---------------------------------------------------------------------------

  /** One turn of the loop in `startControl` up to the invocation. */
  function Send(s: State, slot: Slot): State
    requires slot in s.controls
  {
    var c, id := s.controls[slot], |s.sent|;
    var r := ResourceAt(s, slot);
    var s' := PutResource(s, slot, r.(status := if r.value.None? then Loading else Stale, requestEpoch := c.desired));
    PutControl(s', slot, c.(pendingForce := false, pendingRefresh := false, activity := Running(id, c.desired)))
      .(sent := s.sent + [Request(slot, c.desired, c.pendingForce)], flying := s.flying + {id})
  }

  /** `getControl`. */
  function NewControl(epoch: nat): Control {
    Control(epoch, epoch, Resting, false, false, None, 0, false)
  }

  function WithControl(s: State, slot: Slot): State {
    if slot in s.controls then s else PutControl(s, slot, NewControl(ResourceAt(s, slot).requestEpoch))
  }

  predicate IsFresh(r: Resource, kind: Kind, now: int) {
    r.status.Ready? && r.updatedAt.Some? && now - r.updatedAt.value < Ttl(kind)
  }

  function Max(a: nat, b: nat): nat { if a < b then b else a }

  /** The part of `ensureResource` after the entry was touched. */
  function EnsureTouched(s: State, slot: Slot, force: bool, now: int): State
    requires slot in s.controls
  {
    var c := s.controls[slot];
    if !force && IsFresh(ResourceAt(s, slot), slot.kind, now) then s
    else if !c.activity.Resting? then
      if force then
        PutControl(s, slot, c.(desired := c.desired + 1, pendingForce := true))
          .(overtaken := s.overtaken[slot := |s.sent|])
      else if c.activity.Running? && c.desired == c.activity.generation then s
      else PutControl(s, slot, c.(pendingRefresh := true))
    else if !force && c.retryAt.Some? && now < c.retryAt.value then s
    else if force then
      Send(PutControl(s, slot, c.(desired := Max(c.desired, c.completed) + 1, pendingForce := true))
             .(overtaken := s.overtaken[slot := |s.sent|]), slot)
    else
      Send(PutControl(s, slot, c.(desired := if c.desired <= c.completed then c.completed + 1 else c.desired)), slot)
  }

  /** `ensureResource`. */
  function Ensure(s: State, slot: Slot, force: bool, now: int): State {
    EnsureTouched(WithControl(Touch(s, slot.key), slot), slot, force, now)
  }

  /** The control after a reply: the commit and the `finally`. */
  function CommitControl(c: Control, generation: nat, ok: bool, now: int): Control {
    var done := c.(completed := Max(c.completed, generation));
    if c.retireWhenIdle || c.desired != generation then done
    else if ok then done.(failures := 0, retryAt := None)
    else done.(failures := c.failures + 1, retryAt := Some(now + RetryDelay(c.failures)))
  }

  /** The resource after a reply. */
  function CommitResource(c: Control, r: Resource, id: RequestId, generation: nat, ok: bool, now: int): Resource {
    if c.retireWhenIdle || c.desired != generation || r.requestEpoch != generation then r
    else if ok then Resource(Some(id), Ready, Some(now), generation)
    else r.(status := ErrorStatus)
  }

  function Commit(s: State, id: RequestId, ok: bool, now: int): State
    requires id < |s.sent| && s.sent[id].slot in s.controls
  {
    var slot, g := s.sent[id].slot, s.sent[id].generation;
    var c, r := s.controls[slot], ResourceAt(s, slot);
    PutResource(PutControl(s, slot, CommitControl(c, g, ok, now)), slot, CommitResource(c, r, id, g, ok, now))
  }

  /** The loop's exit test: another turn, or the end. */
  function Continue(s: State, slot: Slot): State
    requires slot in s.controls
  {
    var c := s.controls[slot];
    if c.retireWhenIdle || (!c.pendingForce && !c.pendingRefresh) then PutControl(s, slot, c.(activity := Exited))
    else Send(s, slot)
  }

  /** The answer of a request arrives. */
  function Reply(s: State, id: RequestId, ok: bool, now: int): State {
    if id in s.flying && id < |s.sent| && s.sent[id].slot in s.controls
    then Continue(Commit(s, id, ok, now).(flying := s.flying - {id}), s.sent[id].slot)
    else s
  }

  /** `cleanupRetiredEntry`. */
  function Cleanup(s: State, key: Key): State {
    if s.active == Some(key) || Busy(s.controls, key) || key in s.order then s
    else s.(controls := map slot | slot in s.controls && slot.key != key :: s.controls[slot], entries := s.entries - {key})
  }

  /** The `finally` of the promise. */
  function Settle(s: State, slot: Slot): State {
    if slot !in s.controls || !s.controls[slot].activity.Exited? then s
    else if s.controls[slot].retireWhenIdle then Cleanup(s.(controls := s.controls - {slot}), slot.key)
    else PutControl(s, slot, s.controls[slot].(activity := Resting))
  }

  // ---- invalidation, rebinding, project switch ---------------------------------------------

  function OutdatedStatus(r: Resource): Status { if r.value.None? then IdleStatus else Stale }

  /** `invalidateControl` and the store update, for one project and kind. */
  function Invalidate(s: State, slot: Slot): State {
    if slot.key !in s.entries then s
    else
      var s1 := WithControl(s, slot);
      var c, r := s1.controls[slot], ResourceAt(s, slot);
      var g := Max(Max(c.desired, c.completed), if c.activity.Running? then c.activity.generation else 0) + 1;
      var pending := c.pendingRefresh || (!c.activity.Resting? && !c.retireWhenIdle);
      PutResource(PutControl(s1, slot, c.(desired := g, pendingRefresh := pending)), slot,
                  r.(status := OutdatedStatus(r), requestEpoch := g))
        .(overtaken := s.overtaken[slot := |s.sent|], invalidated := s.invalidated[slot := |s.sent|])
  }

  function InvalidateAll(s: State, slots: seq<Slot>): State {
    if slots == [] then s else Invalidate(InvalidateAll(s, slots[..|slots| - 1]), slots[|slots| - 1])
  }

  function SupersedeControls(controls: map<Slot, Control>, key: Key): map<Slot, Control> {
    map slot | slot in controls ::
      if slot.key == key && Active(controls, slot)
      then controls[slot].(desired := controls[slot].desired + 1, pendingRefresh := false, pendingForce := false)
      else controls[slot]
  }

  function SupersededFact(s: State, slot: Slot): Resource {
    var r := ResourceAt(s, slot);
    if Active(s.controls, slot)
    then r.(status := OutdatedStatus(r), requestEpoch := s.controls[slot].desired + 1) else r
  }

  /** `supersedeActiveEntry`. */
  function Supersede(s: State, key: Key): State {
    var s' := Overtake(s.(controls := SupersedeControls(s.controls, key)), {key});
    if key !in s.entries then s'
    else s'.(entries := s.entries[key := Entry(s.entries[key].authority, SupersededFact(s, Slot(key, Git)),
               SupersededFact(s, Slot(key, Agents)), SupersededFact(s, Slot(key, Providers)))])
  }

  function ReboundControls(controls: map<Slot, Control>, key: Key): map<Slot, Control> {
    map slot | slot in controls ::
      if slot.key == key
      then controls[slot].(desired := controls[slot].desired + 1, retryAt := None, failures := 0,
                           pendingRefresh := controls[slot].pendingRefresh || Active(controls, slot))
      else controls[slot]
  }

  function Rebind(s: State, key: Key, authority: Option<string>): State {
    var marks := SlotsOf({key});
    s.(controls := ReboundControls(s.controls, key), entries := s.entries[key := CreateEntry(authority)],
       overtaken := MarkAll(s.overtaken, marks, |s.sent|), invalidated := MarkAll(s.invalidated, marks, |s.sent|))
  }

  /** `bindProjectFactsAuthority`. */
  function Bind(s: State, key: Key, authority: Option<string>): State {
    var t := Touch(s, key);
    if key in t.entries && t.entries[key].authority == authority then t else Rebind(t, key, authority)
  }

  function SwitchTo(s: State, active: Option<Key>): State {
    if s.active == active then s
    else (if s.active.Some? then Supersede(s, s.active.value) else s).(active := active)
  }

  function PrunedOrder(s: State, active: Option<Key>): seq<Key> {
    if active.None? then []
    else LastThree(Restrict(Without(s.order, active.value), s.entries.Keys)
                   + (if active.value in s.entries then [active.value] else []))
  }

  /** `pruneProjectFacts`. */
  function Prune(s: State, active: Option<Key>): State {
    var s1 := SwitchTo(s, active);
    var order := PrunedOrder(s1, active);
    Retire(s1.(order := order), Elements(order))
  }

  datatype Step =
    | EnsureStep(slot: Slot, force: bool, now: int)
    | ReplyStep(request: RequestId, ok: bool, now: int)
    | SettleStep(slot: Slot)
    | InvalidateStep(slot: Slot)
    | BindStep(key: Key, authority: Option<string>)
    | PruneStep(active: Option<Key>)

  function Next(s: State, step: Step): State {
    match step
    case EnsureStep(slot, force, now) => Ensure(s, slot, force, now)
    case ReplyStep(id, ok, now) => Reply(s, id, ok, now)
    case SettleStep(slot) => Settle(s, slot)
    case InvalidateStep(slot) => Invalidate(s, slot)
    case BindStep(key, authority) => Bind(s, key, authority)
    case PruneStep(active) => Prune(s, active)
  }

  ghost predicate Reachable(s: State) { Leads(Next, START, s) }

  // ---- what is true of every reachable state -------------------------------------------------

  /** The request in flight is the one to store, or is known to be out of date. */
  predicate RunningOk(c: Control, r: Resource, overtaken: nat) {
    c.activity.Running? ==>
      if overtaken <= c.activity.request
      then && c.desired == c.activity.generation == r.requestEpoch
           && !c.retireWhenIdle && !c.pendingForce && !c.pendingRefresh
      else c.desired > c.activity.generation
  }

  predicate ControlOk(s: State, slot: Slot) {
    slot in s.controls ==>
      var c := s.controls[slot];
      && slot.key in s.entries
      && RunningOk(c, ResourceAt(s, slot), Mark(s.overtaken, slot))
      && (c.activity.Running? ==>
            && c.activity.request in s.flying && c.activity.request < |s.sent|
            && s.sent[c.activity.request].slot == slot && s.sent[c.activity.request].generation == c.activity.generation)
  }

  /** What still runs for a project out of the access order has been told to stop. */
  predicate FlagOk(s: State, slot: Slot) {
    Active(s.controls, slot) && slot.key !in s.order ==> s.controls[slot].retireWhenIdle
  }

  predicate FlyingOk(s: State, id: RequestId) {
    id in s.flying ==>
      && id < |s.sent| && s.sent[id].slot in s.controls
      && s.controls[s.sent[id].slot].activity == Running(id, s.sent[id].generation)
  }

  predicate MarksOk(s: State, slot: Slot) {
    Mark(s.invalidated, slot) <= Mark(s.overtaken, slot) <= |s.sent|
  }

  /** The status tells whether there is a value, and every value has its time. */
  predicate StatusOk(r: Resource) {
    && (r.status.IdleStatus? || r.status.Loading? ==> r.value.None?)
    && (r.status.Ready? || r.status.Stale? ==> r.value.Some?)
    && (r.value.Some? <==> r.updatedAt.Some?)
  }

  /** A value came from an answered request of its slot; a ready one is younger than
      the last invalidation. */
  predicate ResourceOk(s: State, slot: Slot) {
    var r := ResourceAt(s, slot);
    && StatusOk(r)
    && (r.value.Some? ==> r.value.value < |s.sent| && s.sent[r.value.value].slot == slot && r.value.value !in s.flying)
    && (r.status.Ready? ==> r.value.Some? && Mark(s.invalidated, slot) <= r.value.value)
  }

  ghost predicate OrderOk(s: State) {
    Distinct(s.order) && |s.order| <= MAX_ENTRIES && forall k :: k in s.order ==> k in s.entries
  }

  predicate RetainedOk(s: State, key: Key) {
    key in s.entries && key !in s.order ==> Busy(s.controls, key) || s.active == Some(key)
  }

  predicate SlotOk(s: State, slot: Slot) {
    ControlOk(s, slot) && MarksOk(s, slot) && ResourceOk(s, slot)
  }

  ghost predicate SlotsOk(s: State) {
    && (forall slot :: SlotOk(s, slot))
    && (forall id: nat :: FlyingOk(s, id))
  }

  ghost predicate Inv(s: State) {
    && SlotsOk(s) && OrderOk(s)
    && (forall slot :: FlagOk(s, slot))
    && (forall k :: RetainedOk(s, k))
  }

  // ---- each step keeps it -------------------------------------------------------------------------

  lemma ActiveIsBusy(controls: map<Slot, Control>, slot: Slot)
    requires Active(controls, slot)
    ensures Busy(controls, slot.key)
  {
    match slot.kind case Git => case Agents => case Providers =>
  }

  lemma RetireKeepsInv(s: State)
    requires SlotsOk(s) && OrderOk(s)
    ensures Inv(Retire(s, Elements(s.order)))
  {
    var s' := Retire(s, Elements(s.order));
    forall slot ensures SlotOk(s', slot) && FlagOk(s', slot) { RetireKeepsSlot(s, slot); }
    forall id: nat ensures FlyingOk(s', id) {
      assert FlyingOk(s, id);
      if id in s.flying { ActiveIsBusy(s.controls, s.sent[id].slot); }
    }
    forall k ensures RetainedOk(s', k) { }
  }

  lemma RetireKeepsSlot(s: State, slot: Slot)
    requires SlotOk(s, slot)
    ensures var s' := Retire(s, Elements(s.order)); SlotOk(s', slot) && FlagOk(s', slot)
  {
    var gone := s.entries.Keys - Elements(s.order);
    assert slot in SlotsOf(gone) <==> slot.key in gone;
  }

  lemma {:induction false} LastThreeOk(order: seq<Key>)
    requires Distinct(order)
    ensures Distinct(LastThree(order)) && |LastThree(order)| <= MAX_ENTRIES
    ensures forall k :: k in LastThree(order) ==> k in order
    ensures order != [] ==> LastThree(order) != [] && order[|order| - 1] in LastThree(order)
  {
  }

  lemma TouchKeepsInv(s: State, key: Key)
    requires Inv(s)
    ensures Inv(Touch(s, key)) && key in Touch(s, key).entries && key in Touch(s, key).order
    ensures forall slot :: Mark(Touch(s, key).invalidated, slot) == Mark(s.invalidated, slot)
  {
    var order := Without(s.order, key) + [key];
    WithoutDistinct(s.order, key);
    AppendDistinct(Without(s.order, key), key);
    LastThreeOk(order);
    var entries := if key in s.entries then s.entries else s.entries[key := CreateEntry(None)];
    var mid := s.(entries := entries, controls := ClearRetire(s.controls, key), order := LastThree(order));
    forall slot ensures SlotOk(mid, slot) {
      assert SlotOk(s, slot);
      assert ResourceAt(mid, slot) == ResourceAt(s, slot);
    }
    forall id: nat ensures FlyingOk(mid, id) { assert FlyingOk(s, id); }
    RetireKeepsInv(mid);
    assert order[|order| - 1] == key;
  }

  /** Only the slot's own control, resource, marks and requests have changed. */
  ghost predicate LocalChange(s: State, s': State, slot: Slot) {
    && s'.entries.Keys == s.entries.Keys && s'.order == s.order && s'.active == s.active && s.sent <= s'.sent
    && (forall id :: |s.sent| <= id < |s'.sent| ==> s'.sent[id].slot == slot)
    && (forall id: nat :: id in s'.flying <==>
          if id < |s.sent| && s.sent[id].slot != slot then id in s.flying
          else slot in s'.controls && s'.controls[slot].activity.Running? && s'.controls[slot].activity.request == id)
    && (forall x :: x != slot ==> SlotSame(s, s', x))
  }

  ghost predicate SlotSame(s: State, s': State, x: Slot) {
    && (x in s'.controls <==> x in s.controls) && (x in s.controls ==> s'.controls[x] == s.controls[x])
    && ResourceAt(s', x) == ResourceAt(s, x)
    && Mark(s'.overtaken, x) == Mark(s.overtaken, x) && Mark(s'.invalidated, x) == Mark(s.invalidated, x)
  }

  lemma LocalChangeKeepsOthers(s: State, s': State, slot: Slot, x: Slot)
    requires LocalChange(s, s', slot) && SlotOk(s, x) && FlagOk(s, x) && x != slot
    ensures SlotOk(s', x) && FlagOk(s', x)
  {
    assert SlotSame(s, s', x);
  }

  lemma LocalChangeKeepsAllBut(s: State, s': State, slot: Slot)
    requires Inv(s) && LocalChange(s, s', slot) && SlotOk(s', slot) && FlagOk(s', slot)
    ensures SlotsOk(s') && OrderOk(s') && forall x :: FlagOk(s', x)
    ensures forall k :: k != slot.key ==> RetainedOk(s', k)
  {
    forall x ensures SlotOk(s', x) && FlagOk(s', x) {
      if x != slot { assert SlotOk(s, x) && FlagOk(s, x); LocalChangeKeepsOthers(s, s', slot, x); }
    }
    forall id: nat ensures FlyingOk(s', id) {
      assert FlyingOk(s, id);
      if id in s'.flying && id < |s.sent| && s.sent[id].slot != slot { assert SlotSame(s, s', s.sent[id].slot); }
    }
    forall k | k != slot.key ensures RetainedOk(s', k) {
      assert RetainedOk(s, k);
      assert forall kind :: SlotSame(s, s', Slot(k, kind));
    }
  }

  lemma LocalChangeKeepsInv(s: State, s': State, slot: Slot)
    requires Inv(s) && LocalChange(s, s', slot) && SlotOk(s', slot) && FlagOk(s', slot)
    requires Active(s.controls, slot) ==> Active(s'.controls, slot) || slot.key in s.order
    ensures Inv(s')
  {
    LocalChangeKeepsAllBut(s, s', slot);
    assert RetainedOk(s, slot.key);
    assert forall kind :: Slot(slot.key, kind) != slot ==> SlotSame(s, s', Slot(slot.key, kind));
  }

  lemma PutResourceIsLocal(s: State, slot: Slot, r: Resource, x: Slot)
    ensures ResourceAt(PutResource(s, slot, r), x) == if x == slot && slot.key in s.entries then r else ResourceAt(s, x)
  {
  }

  lemma SendIsLocal(s: State, slot: Slot)
    requires SlotsOk(s) && slot in s.controls && !s.controls[slot].activity.Running?
    ensures LocalChange(s, Send(s, slot), slot)
  {
    var s' := Send(s, slot);
    forall x | x != slot ensures SlotSame(s, s', x) { }
    forall id: nat | id in s.flying ensures id < |s.sent| && s.sent[id].slot != slot { assert FlyingOk(s, id); }
  }

  /** A control at rest, or one whose loop goes round, sends its next request. */
  lemma SendKeepsInv(s: State, slot: Slot)
    requires Inv(s) && slot in s.controls && !s.controls[slot].activity.Running? && !s.controls[slot].retireWhenIdle
    requires slot.key in s.order
    ensures Inv(Send(s, slot))
  {
    assert SlotOk(s, slot);
    SendIsLocal(s, slot);
    LocalChangeKeepsInv(s, Send(s, slot), slot);
  }

  /** A change of one control that does not touch a request to be stored. */
  lemma TweakKeepsInv(s: State, s': State, slot: Slot, c: Control, mark: bool)
    requires Inv(s) && slot.key in s.entries
    requires s' == PutControl(s, slot, c).(overtaken := if mark then s.overtaken[slot := |s.sent|] else s.overtaken)
    requires slot in s.controls ==> c.activity == s.controls[slot].activity && c.retireWhenIdle == s.controls[slot].retireWhenIdle
    requires slot !in s.controls ==> c.activity.Resting?
    requires c.activity.Running? && mark ==> slot in s.controls && c.desired > s.controls[slot].desired
    requires c.activity.Running? && !mark ==>
      slot in s.controls && c.desired == s.controls[slot].desired && Mark(s.overtaken, slot) > c.activity.request
    ensures Inv(s')
  {
    assert SlotOk(s, slot) && FlagOk(s, slot);
    forall x | x != slot ensures SlotSame(s, s', x) { }
    forall id: nat | id in s.flying
      ensures id < |s.sent|
      ensures s.sent[id].slot == slot ==> slot in s'.controls && s'.controls[slot].activity == Running(id, s.sent[id].generation)
    {
      assert FlyingOk(s, id);
    }
    LocalChangeKeepsInv(s, s', slot);
  }

  lemma WithControlKeepsInv(s: State, slot: Slot)
    requires Inv(s) && slot.key in s.entries
    ensures Inv(WithControl(s, slot)) && slot in WithControl(s, slot).controls
  {
    if slot !in s.controls {
      TweakKeepsInv(s, WithControl(s, slot), slot, NewControl(ResourceAt(s, slot).requestEpoch), false);
    }
  }

  lemma JoinKeepsInv(s: State, slot: Slot, force: bool, now: int)
    requires Inv(s) && slot in s.controls && !s.controls[slot].activity.Resting?
    ensures Inv(EnsureTouched(s, slot, force, now))
  {
    assert SlotOk(s, slot);
    var c, s' := s.controls[slot], EnsureTouched(s, slot, force, now);
    if force {
      TweakKeepsInv(s, s', slot, c.(desired := c.desired + 1, pendingForce := true), true);
    } else if s' != s {
      TweakKeepsInv(s, s', slot, c.(pendingRefresh := true), false);
    }
  }

  lemma StartKeepsInv(s: State, slot: Slot, force: bool, now: int)
    requires Inv(s) && slot in s.controls && slot.key in s.order && !s.controls[slot].retireWhenIdle
    requires s.controls[slot].activity.Resting?
    ensures Inv(EnsureTouched(s, slot, force, now))
  {
    assert SlotOk(s, slot);
    var c := s.controls[slot];
    if force {
      var c' := c.(desired := Max(c.desired, c.completed) + 1, pendingForce := true);
      var mid := PutControl(s, slot, c').(overtaken := s.overtaken[slot := |s.sent|]);
      TweakKeepsInv(s, mid, slot, c', true);
      SendKeepsInv(mid, slot);
    } else if EnsureTouched(s, slot, force, now) != s {
      var c' := c.(desired := if c.desired <= c.completed then c.completed + 1 else c.desired);
      TweakKeepsInv(s, PutControl(s, slot, c'), slot, c', false);
      SendKeepsInv(PutControl(s, slot, c'), slot);
    }
  }

  lemma TouchClearsFlag(s: State, slot: Slot)
    requires Inv(s)
    ensures slot in Touch(s, slot.key).controls ==> !Touch(s, slot.key).controls[slot].retireWhenIdle
  {
    TouchKeepsInv(s, slot.key);
  }

  lemma EnsureKeepsInv(s: State, slot: Slot, force: bool, now: int)
    requires Inv(s)
    ensures Inv(Ensure(s, slot, force, now))
  {
    TouchKeepsInv(s, slot.key);
    TouchClearsFlag(s, slot);
    WithControlKeepsInv(Touch(s, slot.key), slot);
    var t := WithControl(Touch(s, slot.key), slot);
    if t.controls[slot].activity.Resting? { StartKeepsInv(t, slot, force, now); } else { JoinKeepsInv(t, slot, force, now); }
  }

  /** The reply is committed and the loop has left its turn. */
  function Landed(s: State, id: RequestId, ok: bool, now: int): State
    requires id < |s.sent| && s.sent[id].slot in s.controls
  {
    var t, slot := Commit(s, id, ok, now), s.sent[id].slot;
    PutControl(t, slot, t.controls[slot].(activity := Exited)).(flying := s.flying - {id})
  }

  lemma LandedIsLocal(s: State, id: RequestId, ok: bool, now: int)
    requires Inv(s) && id in s.flying && id < |s.sent| && s.sent[id].slot in s.controls
    ensures LocalChange(s, Landed(s, id, ok, now), s.sent[id].slot)
  {
    var slot, s' := s.sent[id].slot, Landed(s, id, ok, now);
    forall x | x != slot ensures SlotSame(s, s', x) { }
    forall i: nat | i in s.flying ensures i < |s.sent| && (s.sent[i].slot == slot ==> i == id) {
      assert FlyingOk(s, i) && FlyingOk(s, id);
    }
  }

  lemma LandedKeepsInv(s: State, id: RequestId, ok: bool, now: int)
    requires Inv(s) && id in s.flying && id < |s.sent| && s.sent[id].slot in s.controls
    ensures Inv(Landed(s, id, ok, now))
  {
    var slot := s.sent[id].slot;
    assert SlotOk(s, slot) && FlagOk(s, slot) && FlyingOk(s, id);
    LandedIsLocal(s, id, ok, now);
    LocalChangeKeepsInv(s, Landed(s, id, ok, now), slot);
  }

  lemma ReplyIsLandedThenContinued(s: State, id: RequestId, ok: bool, now: int)
    requires id in s.flying && id < |s.sent| && s.sent[id].slot in s.controls
    ensures var t, slot := Landed(s, id, ok, now), s.sent[id].slot;
            Reply(s, id, ok, now) ==
            if t.controls[slot].retireWhenIdle || (!t.controls[slot].pendingForce && !t.controls[slot].pendingRefresh)
            then t else Send(t, slot)
  {
    var slot := s.sent[id].slot;
    var t := Commit(s, id, ok, now).(flying := s.flying - {id});
    var c := t.controls[slot];
    assert ResourceAt(Landed(s, id, ok, now), slot) == ResourceAt(t, slot);
    var sending := c.(pendingForce := false, pendingRefresh := false, activity := Running(|s.sent|, c.desired));
    assert t.controls[slot := c.(activity := Exited)][slot := sending] == t.controls[slot := sending];
  }

  lemma ReplyKeepsInv(s: State, id: RequestId, ok: bool, now: int)
    requires Inv(s)
    ensures Inv(Reply(s, id, ok, now))
  {
    if id in s.flying && id < |s.sent| && s.sent[id].slot in s.controls {
      var t, slot := Landed(s, id, ok, now), s.sent[id].slot;
      LandedKeepsInv(s, id, ok, now);
      ReplyIsLandedThenContinued(s, id, ok, now);
      assert FlagOk(t, slot);
      if !t.controls[slot].retireWhenIdle && (t.controls[slot].pendingForce || t.controls[slot].pendingRefresh) {
        SendKeepsInv(t, slot);
      }
    }
  }

  lemma RestingHasNoActivity(controls: map<Slot, Control>, slot: Slot, key: Key)
    requires Active(controls, slot) && !Busy(controls, key)
    ensures slot.key != key
  {
    match slot.kind case Git => case Agents => case Providers =>
  }

  lemma CleanupKeepsInv(s: State, key: Key)
    requires SlotsOk(s) && OrderOk(s) && (forall x :: FlagOk(s, x)) && forall k :: k != key ==> RetainedOk(s, k)
    ensures Inv(Cleanup(s, key))
  {
    var s' := Cleanup(s, key);
    if s' != s {
      forall x ensures SlotOk(s', x) && FlagOk(s', x) { assert SlotOk(s, x) && FlagOk(s, x); }
      forall id: nat ensures FlyingOk(s', id) {
        assert FlyingOk(s, id);
        if id in s.flying { RestingHasNoActivity(s.controls, s.sent[id].slot, key); }
      }
      forall k ensures RetainedOk(s', k) { assert k != key ==> RetainedOk(s, k); }
    }
  }

  lemma SettleKeepsInv(s: State, slot: Slot)
    requires Inv(s)
    ensures Inv(Settle(s, slot))
  {
    if slot in s.controls && s.controls[slot].activity.Exited? {
      assert SlotOk(s, slot) && FlagOk(s, slot);
      var retire := s.controls[slot].retireWhenIdle;
      var s' := if retire then s.(controls := s.controls - {slot})
                else PutControl(s, slot, s.controls[slot].(activity := Resting));
      forall x | x != slot ensures SlotSame(s, s', x) { }
      forall id: nat | id in s.flying ensures id < |s.sent| && s.sent[id].slot != slot { assert FlyingOk(s, id); }
      assert LocalChange(s, s', slot);
      if retire {
        LocalChangeKeepsAllBut(s, s', slot);
        CleanupKeepsInv(s', slot.key);
      } else {
        LocalChangeKeepsInv(s, s', slot);
      }
    }
  }

  lemma InvalidatedSlotOk(s: State, slot: Slot)
    requires SlotOk(s, slot) && FlagOk(s, slot) && slot in s.controls && slot.key in s.entries
    ensures SlotOk(Invalidate(s, slot), slot) && FlagOk(Invalidate(s, slot), slot)
  {
  }

  lemma InvalidateIsLocal(s: State, slot: Slot)
    requires SlotsOk(s) && slot in s.controls && slot.key in s.entries
    ensures LocalChange(s, Invalidate(s, slot), slot)
  {
    var s' := Invalidate(s, slot);
    assert SlotOk(s, slot);
    forall x | x != slot ensures SlotSame(s, s', x) { }
    forall id: nat | id in s.flying
      ensures id < |s.sent|
      ensures s.sent[id].slot == slot ==> s'.controls[slot].activity == Running(id, s.sent[id].generation)
    {
      assert FlyingOk(s, id);
    }
  }

  lemma InvalidateKeepsInv(s: State, slot: Slot)
    requires Inv(s)
    ensures Inv(Invalidate(s, slot))
  {
    if slot.key in s.entries {
      WithControlKeepsInv(s, slot);
      var mid := WithControl(s, slot);
      assert Invalidate(mid, slot) == Invalidate(s, slot);
      assert SlotOk(mid, slot) && FlagOk(mid, slot);
      InvalidatedSlotOk(mid, slot);
      InvalidateIsLocal(mid, slot);
      LocalChangeKeepsInv(mid, Invalidate(mid, slot), slot);
    }
  }

  lemma {:induction false} InvalidateAllKeepsInv(s: State, slots: seq<Slot>)
    requires Inv(s)
    ensures Inv(InvalidateAll(s, slots))
    decreases |slots|
  {
    if slots != [] {
      InvalidateAllKeepsInv(s, slots[..|slots| - 1]);
      InvalidateKeepsInv(InvalidateAll(s, slots[..|slots| - 1]), slots[|slots| - 1]);
    }
  }

  lemma MarkedSlots(key: Key, slot: Slot)
    ensures slot in SlotsOf({key}) <==> slot.key == key
  {
    match slot.kind case Git => case Agents => case Providers =>
  }

  lemma RebindKeepsInv(s: State, key: Key, authority: Option<string>)
    requires Inv(s) && key in s.entries
    ensures Inv(Rebind(s, key, authority))
  {
    var s' := Rebind(s, key, authority);
    forall x ensures SlotOk(s', x) && FlagOk(s', x) {
      assert SlotOk(s, x) && FlagOk(s, x);
      MarkedSlots(key, x);
    }
    forall id: nat ensures FlyingOk(s', id) { assert FlyingOk(s, id); }
    forall k ensures RetainedOk(s', k) { assert RetainedOk(s, k); }
  }

  lemma BindKeepsInv(s: State, key: Key, authority: Option<string>)
    requires Inv(s)
    ensures Inv(Bind(s, key, authority))
  {
    TouchKeepsInv(s, key);
    if Bind(s, key, authority) != Touch(s, key) { RebindKeepsInv(Touch(s, key), key, authority); }
  }

  lemma MarkAllAt(m: map<Slot, nat>, keys: set<Key>, n: nat, slot: Slot)
    ensures Mark(MarkAll(m, SlotsOf(keys), n), slot) == if slot.key in keys then n else Mark(m, slot)
  {
    match slot.kind case Git => case Agents => case Providers =>
  }

  lemma SupersedeAt(s: State, key: Key, slot: Slot)
    ensures var s' := Supersede(s, key);
            && Mark(s'.overtaken, slot) == (if slot.key == key then |s.sent| else Mark(s.overtaken, slot))
            && ResourceAt(s', slot) == (if slot.key == key && key in s.entries then SupersededFact(s, slot) else ResourceAt(s, slot))
  {
    MarkAllAt(s.overtaken, {key}, |s.sent|, slot);
    match slot.kind case Git => case Agents => case Providers =>
  }

  lemma SupersedeKeepsSlot(s: State, key: Key, slot: Slot)
    requires SlotOk(s, slot)
    ensures SlotOk(Supersede(s, key), slot)
  {
    SupersedeAt(s, key, slot);
    if slot in s.controls { assert slot in Supersede(s, key).controls; }
  }

  lemma SupersedeKeepsInv(s: State, key: Key)
    requires SlotsOk(s) && OrderOk(s)
    ensures SlotsOk(Supersede(s, key)) && OrderOk(Supersede(s, key))
  {
    var s' := Supersede(s, key);
    forall x ensures SlotOk(s', x) { SupersedeKeepsSlot(s, key, x); }
    forall id: nat ensures FlyingOk(s', id) { assert FlyingOk(s, id); }
  }

  lemma {:induction false} RestrictOk(order: seq<Key>, keep: set<Key>)
    requires Distinct(order)
    ensures Distinct(Restrict(order, keep))
    ensures forall k :: k in Restrict(order, keep) <==> k in order && k in keep
  {
    if order != [] {
      RestrictOk(order[1..], keep);
      assert forall i :: 0 < i < |order| ==> order[i] in order[1..] && order[i] != order[0];
      assert order[0] !in Restrict(order[1..], keep);
    }
  }

  lemma PrunedOrderOk(s: State, active: Option<Key>)
    requires OrderOk(s)
    ensures OrderOk(s.(order := PrunedOrder(s, active)))
  {
    if active.Some? {
      var others := Without(s.order, active.value);
      WithoutDistinct(s.order, active.value);
      RestrictOk(others, s.entries.Keys);
      var kept := Restrict(others, s.entries.Keys);
      if active.value in s.entries { AppendDistinct(kept, active.value); } else { assert kept + [] == kept; }
      LastThreeOk(kept + if active.value in s.entries then [active.value] else []);
    }
  }

  lemma PruneKeepsInv(s: State, active: Option<Key>)
    requires Inv(s)
    ensures Inv(Prune(s, active))
  {
    if s.active != active && s.active.Some? { SupersedeKeepsInv(s, s.active.value); }
    var t := if s.active != active && s.active.Some? then Supersede(s, s.active.value) else s;
    assert SlotsOk(t) && OrderOk(t);
    var s1 := SwitchTo(s, active);
    assert s1 == t.(active := active);
    forall x ensures SlotOk(s1, x) { assert SlotOk(t, x); }
    forall id: nat ensures FlyingOk(s1, id) { assert FlyingOk(t, id); }
    PrunedOrderOk(s1, active);
    var s2 := s1.(order := PrunedOrder(s1, active));
    forall x ensures SlotOk(s2, x) { assert SlotOk(s1, x); }
    forall id: nat ensures FlyingOk(s2, id) { assert FlyingOk(s1, id); }
    RetireKeepsInv(s2);
  }

  lemma RequestStepKeepsInv(s: State, step: Step)
    requires Inv(s) && (step.EnsureStep? || step.ReplyStep? || step.SettleStep?)
    ensures Inv(Next(s, step))
  {
    match step
    case EnsureStep(slot, force, now) =>
      assert Next(s, step) == Ensure(s, slot, force, now);
      EnsureKeepsInv(s, slot, force, now);
    case ReplyStep(id, ok, now) =>
      assert Next(s, step) == Reply(s, id, ok, now);
      ReplyKeepsInv(s, id, ok, now);
    case SettleStep(slot) =>
      assert Next(s, step) == Settle(s, slot);
      SettleKeepsInv(s, slot);
  }

  lemma NextKeepsInv(s: State, step: Step)
    requires Inv(s)
    ensures Inv(Next(s, step))
  {
    match step
    case InvalidateStep(slot) =>
      assert Next(s, step) == Invalidate(s, slot);
      InvalidateKeepsInv(s, slot);
    case BindStep(key, authority) =>
      assert Next(s, step) == Bind(s, key, authority);
      BindKeepsInv(s, key, authority);
    case PruneStep(active) =>
      assert Next(s, step) == Prune(s, active);
      PruneKeepsInv(s, active);
    case _ => RequestStepKeepsInv(s, step);
  }

  lemma {:induction false} RunKeepsInv(trace: seq<State>, steps: seq<Step>, n: nat)
    requires IsPath(Next, trace, steps) && Inv(trace[0]) && n <= |steps|
    ensures Inv(trace[n])
    decreases n
  {
    if n > 0 {
      RunKeepsInv(trace, steps, n - 1);
      StepKeepsInv(trace, steps, n - 1);
    }
  }

  lemma {:induction false} StepKeepsInv(trace: seq<State>, steps: seq<Step>, i: nat)
    requires IsPath(Next, trace, steps) && i < |steps| && Inv(trace[i])
    ensures Inv(trace[i + 1])
  {
    NextKeepsInv(trace[i], steps[i]);
    assert trace[i + 1] == Next(trace[i], steps[i]);
  }

  lemma ReachableIsInv(s: State)
    requires Reachable(s)
    ensures Inv(s)
  {
    var trace: seq<State>, steps: seq<Step> :| IsPath(Next, trace, steps) && trace[0] == START && trace[|steps|] == s;
    RunKeepsInv(trace, steps, |steps|);
  }
}
