/** Per-root transition lanes (`ProjectTrustTransitionLanes` in
    `src-tauri/src/app_state.rs`).

    The map holds weak references: a lane lives as long as some caller holds a handle
    to it, and is forgotten after that. */
module TransitionLanes {

  /** Identity of one mutex; never reused for another. */
  type LaneId = nat
  type HandleId = nat

  /** A strong reference that a caller got for a canonical identity key. */
  datatype Handle = Handle(key: string, lane: LaneId)

  /** `lanes`, the strong references, and which handle has locked which mutex. */
  datatype State = State(
    lanes: map<string, LaneId>,
    handles: map<HandleId, Handle>,
    locked: map<LaneId, HandleId>,
    created: nat,
    issued: nat)

  const START := State(map[], map[], map[], 0, 0)

  /** `strong_count() > 0`. */
  ghost predicate Live(s: State, lane: LaneId) {
    exists h :: h in s.handles && s.handles[h].lane == lane
  }

  /** `retain`: forget lanes that nobody holds. */
  ghost function Purged(s: State): map<string, LaneId> {
    map k | k in s.lanes && Live(s, s.lanes[k]) :: s.lanes[k]
  }

  /** `lane`: the live lane of the key, or a new one; the caller gets handle
      `issued`. */
  ghost function Lane(s: State, key: string): State {
    var live := Purged(s);
    var id := if key in live then live[key] else s.created;
    s.(lanes := live[key := id],
       handles := s.handles[s.issued := Handle(key, id)],
       created := if key in live then s.created else s.created + 1,
       issued := s.issued + 1)
  }

  datatype Step = Get(key: string) | Lock(handle: HandleId) | Unlock(handle: HandleId) | Drop(handle: HandleId)

  /** A mutex admits one locker; a guard borrows its handle, so a locked handle
      cannot be dropped. A step that is not possible waits, that is, does nothing. */
  ghost function Next(s: State, step: Step): State {
    match step
    case Get(key) => Lane(s, key)
    case Lock(h) =>
      if h in s.handles && s.handles[h].lane !in s.locked then s.(locked := s.locked[s.handles[h].lane := h]) else s
    case Unlock(h) =>
      if Holds(s, h) then s.(locked := s.locked - {s.handles[h].lane}) else s
    case Drop(h) =>
      if h in s.handles && !Holds(s, h) then s.(handles := s.handles - {h}) else s
  }

  ghost function Run(steps: seq<Step>): State {
    if steps == [] then START else Next(Run(steps[..|steps| - 1]), steps[|steps| - 1])
  }

  ghost predicate Holds(s: State, h: HandleId) {
    h in s.handles && s.handles[h].lane in s.locked && s.locked[s.handles[h].lane] == h
  }

  ghost predicate Inv(s: State) {
    && (forall h :: h in s.handles ==>
          h < s.issued && s.handles[h].key in s.lanes && s.lanes[s.handles[h].key] == s.handles[h].lane)
    && (forall k :: k in s.lanes ==> s.lanes[k] < s.created)
    && (forall j, k :: j in s.lanes && k in s.lanes && s.lanes[j] == s.lanes[k] ==> j == k)
    && (forall l :: l in s.locked ==> s.locked[l] in s.handles && s.handles[s.locked[l]].lane == l)
  }

  lemma GetKeepsInv(s: State, key: string)
    requires Inv(s)
    ensures Inv(Lane(s, key))
  {
    var live := Purged(s);
    forall h | h in s.handles ensures s.handles[h].key in live && live[s.handles[h].key] == s.handles[h].lane {
      assert Live(s, s.handles[h].lane);
    }
    InsertKeepsInv(s.(lanes := live), key);
  }

  // Handing out the key's lane when the map already holds every live lane.
  lemma InsertKeepsInv(s: State, key: string)
    requires Inv(s)
    ensures var id := if key in s.lanes then s.lanes[key] else s.created;
            Inv(s.(lanes := s.lanes[key := id], handles := s.handles[s.issued := Handle(key, id)],
                   created := if key in s.lanes then s.created else s.created + 1, issued := s.issued + 1))
  {
  }

  lemma NextKeepsInv(s: State, step: Step)
    requires Inv(s)
    ensures Inv(Next(s, step))
  {
    match step
    case Get(key) => GetKeepsInv(s, key);
    case Lock(h) => LockKeepsInv(s, h);
    case Unlock(h) => LockKeepsInv(s, h);
    case Drop(h) => DropKeepsInv(s, h);
  }

  lemma LockKeepsInv(s: State, h: HandleId)
    requires Inv(s)
    ensures Inv(Next(s, Lock(h))) && Inv(Next(s, Unlock(h)))
  {
  }

  lemma DropKeepsInv(s: State, h: HandleId)
    requires Inv(s)
    ensures Inv(Next(s, Drop(h)))
  {
  }

  lemma {:induction false} RunKeepsInv(steps: seq<Step>)
    ensures Inv(Run(steps))
  {
    if steps != [] {
      RunKeepsInv(steps[..|steps| - 1]);
      NextKeepsInv(Run(steps[..|steps| - 1]), steps[|steps| - 1]);
    }
  }

  /** Live handles share a mutex exactly when they were asked for the same root. */
  lemma {:induction false} HandlesShareLaneIffSameKey(steps: seq<Step>, a: HandleId, b: HandleId)
    requires a in Run(steps).handles && b in Run(steps).handles
    ensures Run(steps).handles[a].lane == Run(steps).handles[b].lane <==> Run(steps).handles[a].key == Run(steps).handles[b].key
  {
    RunKeepsInv(steps);
  }

  /** Two lock holders for one root never overlap. */
  lemma {:induction false} LaneExcludes(steps: seq<Step>, a: HandleId, b: HandleId)
    requires Holds(Run(steps), a) && Holds(Run(steps), b)
    requires Run(steps).handles[a].key == Run(steps).handles[b].key
    ensures a == b
  {
    RunKeepsInv(steps);
  }

  /** An unrelated root is never blocked: whoever holds a mutex that a handle waits
      for, holds it for the same root. */
  lemma {:induction false} UnrelatedRootsAreIndependent(steps: seq<Step>, h: HandleId)
    requires h in Run(steps).handles && Run(steps).handles[h].lane in Run(steps).locked
    ensures var holder := Run(steps).locked[Run(steps).handles[h].lane];
            Holds(Run(steps), holder) && Run(steps).handles[holder].key == Run(steps).handles[h].key
  {
    RunKeepsInv(steps);
  }

  /** A handle gets its mutex if and only if no other handle of the same root holds it, and
      gives it free again. */
  lemma {:induction false} LockIsTakenIffFree(steps: seq<Step>, h: HandleId)
    requires h in Run(steps).handles
    ensures var s := Run(steps);
            && (Holds(Next(s, Lock(h)), h) <==> forall other :: Holds(s, other) && s.handles[other].key == s.handles[h].key ==> other == h)
            && !Holds(Next(s, Unlock(h)), h)
  {
    RunKeepsInv(steps);
    var s := Run(steps);
    var lane := s.handles[h].lane;
    if lane in s.locked { assert Holds(s, s.locked[lane]); }
  }

  /** A call finds the lane that another handle of the root keeps alive, and makes a new one
      if and only if there is none. */
  lemma LaneIsReusedIff(s: State, key: string)
    requires Inv(s)
    ensures var t := Lane(s, key);
            && s.issued in t.handles && t.handles[s.issued].key == key
            && (t.handles[s.issued].lane < s.created <==> exists other :: other in s.handles && s.handles[other].key == key)
  {
    if key in Purged(s) {
      var other :| other in s.handles && s.handles[other].lane == s.lanes[key];
      assert s.handles[other].key == key;
    }
    if other :| other in s.handles && s.handles[other].key == key { assert Live(s, s.handles[other].lane); }
  }

  /** A handle that holds no lock goes when it is dropped; a locked one stays. After the last
      handle of a root has gone, the next call for it makes a new lane. */
  lemma {:induction false} DroppedHandleGoes(steps: seq<Step>, h: HandleId)
    requires h in Run(steps).handles
    ensures var s, s' := Run(steps), Next(Run(steps), Drop(h));
            && s'.handles == (if Holds(s, h) then s.handles else s.handles - {h})
            && var key, t := s.handles[h].key, Lane(s', s.handles[h].key);
               && s'.issued in t.handles && t.handles[s'.issued].key == key
               && (t.handles[s'.issued].lane < s.created <==> exists other :: other in s'.handles && s'.handles[other].key == key)
  {
    RunKeepsInv(steps);
    NextKeepsInv(Run(steps), Drop(h));
    LaneIsReusedIff(Next(Run(steps), Drop(h)), Run(steps).handles[h].key);
  }

  /** After each call the map names exactly the lanes that somebody holds. */
  lemma {:induction false} CallPurgesDeadLanes(steps: seq<Step>, key: string)
    ensures var s := Run(steps + [Get(key)]);
            && (forall k :: k in s.lanes <==> exists h :: h in s.handles && s.handles[h].key == k)
            && (forall k :: k in s.lanes ==> Live(s, s.lanes[k]))
  {
    var before := Run(steps);
    assert (steps + [Get(key)])[..|steps|] == steps;
    var s := Run(steps + [Get(key)]);
    assert s == Lane(before, key);
    RunKeepsInv(steps);
    RunKeepsInv(steps + [Get(key)]);
    assert before.issued in s.handles && s.handles[before.issued].key == key;
    forall k | k in s.lanes
      ensures Live(s, s.lanes[k]) && exists h :: h in s.handles && s.handles[h].key == k
    {
      if k != key {
        assert k in Purged(before);
        var h :| h in before.handles && before.handles[h].lane == before.lanes[k];
        assert h in s.handles && s.handles[h] == before.handles[h];
      } else {
        assert s.handles[before.issued].lane == s.lanes[key];
      }
    }
  }

  // ---- the lanes object -------------------------------------------------------------------

  class ProjectTrustTransitionLanes {
    var lanes: map<string, LaneId>
    var handles: map<HandleId, Handle>
    var locked: map<LaneId, HandleId>
    var created: nat
    var issued: nat

    ghost function Model(): State
      reads this
    {
      State(lanes, handles, locked, created, issued)
    }

    constructor ()
      ensures Model() == START
    {
      lanes, handles, locked, created, issued := map[], map[], map[], 0, 0;
    }

    predicate StrongCountPositive(lane: LaneId)
      reads this
      ensures StrongCountPositive(lane) == Live(Model(), lane)
    {
      exists h | h in handles :: handles[h].lane == lane
    }

    method Retain()
      modifies this`lanes
      ensures lanes == Purged(old(Model()))
    {
      lanes := map k | k in lanes && StrongCountPositive(lanes[k]) :: lanes[k];
    }

    /** `lane`. The invariant of every run is kept, and the map ends up with live
        lanes only. */
    method AcquireHandle(key: string) returns (handle: HandleId)
      requires Inv(Model())
      modifies this
      ensures Inv(Model()) && Model() == Lane(old(Model()), key)
      ensures handle == old(issued) && handle in handles && handles[handle].key == key
    {
      GetKeepsInv(Model(), key);
      ghost var after := Lane(Model(), key);
      Retain();
      var lane := if key in lanes then lanes[key] else created;
      if key !in lanes { created := created + 1; }
      handle := issued;
      lanes := lanes[key := lane];
      handles := handles[handle := Handle(key, lane)];
      issued := issued + 1;
      assert Model() == after;
    }

    method DropHandle(handle: HandleId)
      requires Inv(Model()) && handle in handles && !Holds(Model(), handle)
      modifies this`handles
      ensures Inv(Model()) && Model() == Next(old(Model()), Drop(handle))
    {
      NextKeepsInv(Model(), Drop(handle));
      handles := handles - {handle};
    }
  }
}
