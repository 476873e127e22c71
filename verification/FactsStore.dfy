/** The coordinator's store and control objects (`src/stores/projectFactsStore.ts`). */
module FactsStore {
  import opened Common
  import opened ProjectFacts
  import opened FactsFreshness

  lemma RetireOneMore(controls: map<Slot, Control>, done: set<Key>, key: Key)
    requires key !in done
    ensures RetireControls(RetireControls(controls, done), {key}) == RetireControls(controls, done + {key})
    ensures Busy(RetireControls(controls, done), key) == Busy(controls, key)
  {
    var once := RetireControls(controls, done);
    assert forall kind :: Active(once, Slot(key, kind)) == Active(controls, Slot(key, kind));
    assert forall slot: Slot :: slot.key == key ==> (slot in once <==> slot in controls);
  }

  /** A control while the kinds of a project are gone through: done or not yet. */
  function PartlyDone(before: map<Slot, Control>, target: map<Slot, Control>, key: Key, kinds: seq<Kind>, slot: Slot): Control
    requires slot in before && slot in target
  {
    if slot.key == key && slot.kind in kinds then target[slot] else before[slot]
  }

  const KINDS := [Git, Agents, Providers]

  lemma EveryKind()
    ensures forall kind: Kind :: kind in KINDS
  {
    forall kind: Kind ensures kind in KINDS { match kind case Git => assert KINDS[0] == Git; case Agents => assert KINDS[1] == Agents; case Providers => assert KINDS[2] == Providers; }
  }

  /** The first `n` kinds of the project have been gone through. */
  ghost predicate Swept(before: map<Slot, Control>, target: map<Slot, Control>, now: map<Slot, Control>, key: Key, n: nat)
    requires n <= |KINDS|
  {
    now.Keys == before.Keys == target.Keys && forall x :: x in before ==> now[x] == PartlyDone(before, target, key, KINDS[..n], x)
  }

  lemma SweepOne(before: map<Slot, Control>, target: map<Slot, Control>, now: map<Slot, Control>, key: Key, n: nat)
    requires n < |KINDS| && Swept(before, target, now, key, n)
    ensures var slot := Slot(key, KINDS[n]);
            && (slot in now <==> slot in before)
            && (slot in now ==> now[slot] == before[slot] && Swept(before, target, now[slot := target[slot]], key, n + 1))
            && (slot !in now ==> Swept(before, target, now, key, n + 1))
  {
    assert KINDS[..n + 1] == KINDS[..n] + [KINDS[n]];
    assert KINDS[n] !in KINDS[..n];
  }

  lemma SweepDone(before: map<Slot, Control>, target: map<Slot, Control>, now: map<Slot, Control>, key: Key)
    requires Swept(before, target, now, key, |KINDS|)
    requires forall x :: x in before && x.key != key ==> target[x] == before[x]
    ensures now == target
  {
    EveryKind();
    assert KINDS[..|KINDS|] == KINDS;
  }

  class ProjectFactsStore {
    var entries: map<Key, Entry>
    var accessOrder: seq<Key>
    var resourceControls: map<Slot, Control>
    var activeKey: Option<Key>
    var sent: seq<Request>
    var flying: set<RequestId>
    ghost var overtaken: map<Slot, nat>
    ghost var invalidated: map<Slot, nat>

    ghost function Model(): State
      reads this
    {
      State(entries, accessOrder, resourceControls, activeKey, sent, flying, overtaken, invalidated)
    }

    constructor ()
      ensures Model() == START
    {
      entries, accessOrder, resourceControls, activeKey, sent, flying := map[], [], map[], None, [], {};
      overtaken, invalidated := map[], map[];
    }

    method RetireEntry(key: Key) returns (keep: bool)
      modifies this`resourceControls
      ensures keep == Busy(old(resourceControls), key)
      ensures resourceControls == RetireControls(old(resourceControls), {key})
    {
      keep := Busy(resourceControls, key);
      if !keep {
        resourceControls := map slot | slot in resourceControls && slot.key != key :: resourceControls[slot];
        return;
      }
      ghost var before := resourceControls;
      ghost var target := RetireControls(before, {key});
      for i := 0 to |KINDS|
        invariant Swept(before, target, resourceControls, key, i)
      {
        var slot := Slot(key, KINDS[i]);
        SweepOne(before, target, resourceControls, key, i);
        if Active(resourceControls, slot) {
          resourceControls := resourceControls[slot := RetiredControl(resourceControls[slot])];
        } else if slot in resourceControls {
          assert resourceControls[slot := target[slot]] == resourceControls;
        }
      }
      SweepDone(before, target, resourceControls, key);
    }

    /** Go through the entries, retiring those not kept; an entry stays while one of
        its requests runs. */
    method FilterEntries(keep: set<Key>) returns (kept: map<Key, Entry>)
      modifies this`resourceControls
      ensures resourceControls == RetireControls(old(resourceControls), entries.Keys - keep)
      ensures kept == map k | k in entries && (k in keep || Busy(old(resourceControls), k)) :: entries[k]
    {
      ghost var before := resourceControls;
      var todo := entries.Keys;
      kept := map[];
      ghost var gone := {};
      while todo != {}
        invariant todo <= entries.Keys && gone == entries.Keys - todo - keep
        invariant resourceControls == RetireControls(before, gone)
        invariant kept == map k | k in entries && k !in todo && (k in keep || Busy(before, k)) :: entries[k]
      {
        var key :| key in todo;
        var retained := true;
        if key !in keep {
          RetireOneMore(before, gone, key);
          retained := RetireEntry(key);
          gone := gone + {key};
        }
        if retained { kept := kept[key := entries[key]]; }
        todo := todo - {key};
      }
      assert gone == entries.Keys - keep;
    }

    method RetireOutside(keep: set<Key>)
      modifies this`resourceControls, this`entries, this`overtaken
      ensures Model() == Retire(old(Model()), keep)
    {
      overtaken := MarkAll(overtaken, SlotsOf(entries.Keys - keep), |sent|);
      entries := FilterEntries(keep);
    }

    /** The controls of a touched entry are no longer to be retired. */
    method KeepControls(key: Key)
      modifies this`resourceControls
      ensures resourceControls == ClearRetire(old(resourceControls), key)
    {
      ghost var before := resourceControls;
      ghost var target := ClearRetire(before, key);
      for i := 0 to |KINDS|
        invariant Swept(before, target, resourceControls, key, i)
      {
        var slot := Slot(key, KINDS[i]);
        SweepOne(before, target, resourceControls, key, i);
        if slot in resourceControls {
          resourceControls := resourceControls[slot := resourceControls[slot].(retireWhenIdle := false)];
        }
      }
      SweepDone(before, target, resourceControls, key);
    }

    method TouchEntry(key: Key)
      modifies this
      ensures Model() == Touch(old(Model()), key)
    {
      if key !in entries { entries := entries[key := CreateEntry(None)]; }
      KeepControls(key);
      accessOrder := LastThree(Without(accessOrder, key) + [key]);
      RetireOutside(Elements(accessOrder));
    }

    /** One turn of the request loop, up to the invocation. */
    method SendRequest(slot: Slot)
      requires slot in resourceControls
      modifies this
      ensures Model() == Send(old(Model()), slot)
    {
      var control, id := resourceControls[slot], |sent|;
      if slot.key in entries {
        var r := Fact(entries[slot.key], slot.kind);
        var loading := r.(status := if r.value.None? then Loading else Stale, requestEpoch := control.desired);
        entries := entries[slot.key := WithFact(entries[slot.key], slot.kind, loading)];
      }
      sent := sent + [Request(slot, control.desired, control.pendingForce)];
      flying := flying + {id};
      resourceControls := resourceControls[slot :=
        control.(pendingForce := false, pendingRefresh := false, activity := Running(id, control.desired))];
    }

    method EnsureResource(slot: Slot, force: bool, now: int)
      requires Inv(Model())
      modifies this
      ensures Inv(Model()) && Model() == Ensure(old(Model()), slot, force, now)
    {
      EnsureKeepsInv(Model(), slot, force, now);
      GetControl(slot);
      EnsureWithControl(slot, force, now);
    }

    /** `touchEntry` and `getControl`. */
    method GetControl(slot: Slot)
      modifies this
      ensures Model() == WithControl(Touch(old(Model()), slot.key), slot)
      ensures slot in resourceControls && slot.key in entries
    {
      TouchKeepsEntry(Model(), slot.key);
      TouchEntry(slot.key);
      if slot !in resourceControls {
        resourceControls := resourceControls[slot := NewControl(Fact(entries[slot.key], slot.kind).requestEpoch)];
      }
    }

    method EnsureWithControl(slot: Slot, force: bool, now: int)
      requires slot in resourceControls && slot.key in entries
      modifies this
      ensures Model() == EnsureTouched(old(Model()), slot, force, now)
    {
      var resource, control := Fact(entries[slot.key], slot.kind), resourceControls[slot];
      if !force && IsFresh(resource, slot.kind, now) { return; }
      if !control.activity.Resting? {
        if force {
          overtaken := overtaken[slot := |sent|];
          resourceControls := resourceControls[slot := control.(desired := control.desired + 1, pendingForce := true)];
        } else if !control.activity.Running? || control.desired != control.activity.generation {
          resourceControls := resourceControls[slot := control.(pendingRefresh := true)];
        }
        return;
      }
      if !force && control.retryAt.Some? && now < control.retryAt.value { return; }
      if force {
        overtaken := overtaken[slot := |sent|];
        control := control.(desired := Max(control.desired, control.completed) + 1, pendingForce := true);
      } else if control.desired <= control.completed {
        control := control.(desired := control.completed + 1);
      }
      resourceControls := resourceControls[slot := control];
      SendRequest(slot);
    }

    /** A request returns: commit if it is still current, then go round or end. */
    method OnReply(id: RequestId, ok: bool, now: int)
      requires Inv(Model()) && id in flying
      modifies this
      ensures Inv(Model()) && Model() == Reply(old(Model()), id, ok, now)
    {
      ReplyKeepsInv(Model(), id, ok, now);
      assert FlyingOk(Model(), id);
      ghost var s := Model();
      var slot, generation := sent[id].slot, sent[id].generation;
      assert SlotOk(Model(), slot);
      var control := resourceControls[slot];
      var resource := Fact(entries[slot.key], slot.kind);
      var stored := CommitResource(control, resource, id, generation, ok, now);
      entries := entries[slot.key := WithFact(entries[slot.key], slot.kind, stored)];
      control := CommitControl(control, generation, ok, now);
      resourceControls := resourceControls[slot := control];
      flying := flying - {id};
      assert Model() == Commit(s, id, ok, now).(flying := s.flying - {id});
      if control.retireWhenIdle || (!control.pendingForce && !control.pendingRefresh) {
        resourceControls := resourceControls[slot := control.(activity := Exited)];
        return;
      }
      SendRequest(slot);
    }

    method OnSettled(slot: Slot)
      requires Inv(Model())
      modifies this
      ensures Inv(Model()) && Model() == Settle(old(Model()), slot)
    {
      SettleKeepsInv(Model(), slot);
      if slot !in resourceControls || !resourceControls[slot].activity.Exited? { return; }
      if !resourceControls[slot].retireWhenIdle {
        resourceControls := resourceControls[slot := resourceControls[slot].(activity := Resting)];
        return;
      }
      resourceControls := resourceControls - {slot};
      if activeKey == Some(slot.key) || Busy(resourceControls, slot.key) || slot.key in accessOrder { return; }
      resourceControls := map x | x in resourceControls && x.key != slot.key :: resourceControls[x];
      entries := entries - {slot.key};
    }

    /** `invalidateProjectFactEntries`, slot by slot. */
    method InvalidateEntries(slots: seq<Slot>)
      requires Inv(Model())
      modifies this
      ensures Inv(Model()) && Model() == InvalidateAll(old(Model()), slots)
    {
      ghost var s := Model();
      InvalidateAllKeepsInv(s, slots);
      for i := 0 to |slots|
        invariant Model() == InvalidateAll(s, slots[..i])
      {
        InvalidateSlot(slots[i]);
        assert slots[..i + 1][..i] == slots[..i];
      }
      assert slots[..|slots|] == slots;
    }

    method InvalidateSlot(slot: Slot)
      modifies this
      ensures Model() == Invalidate(old(Model()), slot)
    {
      if slot.key !in entries { return; }
      var r := Fact(entries[slot.key], slot.kind);
      var control := if slot in resourceControls then resourceControls[slot] else NewControl(r.requestEpoch);
      var running := if control.activity.Running? then control.activity.generation else 0;
      control := control.(desired := Max(Max(control.desired, control.completed), running) + 1);
      if !control.activity.Resting? && !control.retireWhenIdle { control := control.(pendingRefresh := true); }
      ghost var s := Model();
      resourceControls := resourceControls[slot := control];
      entries := entries[slot.key := WithFact(entries[slot.key], slot.kind,
                           r.(status := OutdatedStatus(r), requestEpoch := control.desired))];
      overtaken, invalidated := overtaken[slot := |sent|], invalidated[slot := |sent|];
      assert WithControl(s, slot).controls[slot := control] == resourceControls;
    }

    /** The controls of a rebound entry ask for another request. */
    method RebindControls(key: Key)
      modifies this`resourceControls
      ensures resourceControls == ReboundControls(old(resourceControls), key)
    {
      ghost var before := resourceControls;
      ghost var target := ReboundControls(before, key);
      for i := 0 to |KINDS|
        invariant Swept(before, target, resourceControls, key, i)
      {
        var slot := Slot(key, KINDS[i]);
        SweepOne(before, target, resourceControls, key, i);
        if slot in resourceControls {
          var control := resourceControls[slot];
          control := control.(desired := control.desired + 1, retryAt := None, failures := 0);
          if !control.activity.Resting? { control := control.(pendingRefresh := true); }
          resourceControls := resourceControls[slot := control];
        }
      }
      SweepDone(before, target, resourceControls, key);
    }

    method BindAuthority(key: Key, authority: Option<string>)
      requires Inv(Model())
      modifies this
      ensures Inv(Model()) && Model() == Bind(old(Model()), key, authority)
    {
      BindKeepsInv(Model(), key, authority);
      TouchKeepsEntry(Model(), key);
      TouchEntry(key);
      if entries[key].authority != authority { RebindEntry(key, authority); }
    }

    method RebindEntry(key: Key, authority: Option<string>)
      modifies this
      ensures Model() == Rebind(old(Model()), key, authority)
    {
      overtaken := MarkAll(overtaken, SlotsOf({key}), |sent|);
      invalidated := MarkAll(invalidated, SlotsOf({key}), |sent|);
      RebindControls(key);
      entries := entries[key := CreateEntry(authority)];
    }

    method PruneProjectFacts(active: Option<Key>)
      requires Inv(Model())
      modifies this
      ensures Inv(Model()) && Model() == Prune(old(Model()), active)
    {
      PruneKeepsInv(Model(), active);
      if activeKey != active {
        if activeKey.Some? { SupersedeActiveEntry(activeKey.value); }
        activeKey := active;
      }
      accessOrder :=
        if active.None? then []
        else LastThree(Restrict(Without(accessOrder, active.value), entries.Keys)
                       + (if active.value in entries then [active.value] else []));
      RetireOutside(Elements(accessOrder));
    }

    /** The running controls of the entry that was left are overtaken. */
    method SupersedeRunning(key: Key)
      modifies this`resourceControls
      ensures resourceControls == SupersedeControls(old(resourceControls), key)
    {
      ghost var before := resourceControls;
      ghost var target := SupersedeControls(before, key);
      for i := 0 to |KINDS|
        invariant Swept(before, target, resourceControls, key, i)
      {
        var slot := Slot(key, KINDS[i]);
        SweepOne(before, target, resourceControls, key, i);
        if Active(resourceControls, slot) {
          var control := resourceControls[slot];
          resourceControls := resourceControls[slot :=
            control.(desired := control.desired + 1, pendingRefresh := false, pendingForce := false)];
        } else if slot in resourceControls {
          assert resourceControls[slot := target[slot]] == resourceControls;
        }
      }
      SweepDone(before, target, resourceControls, key);
    }

    method SupersedeActiveEntry(key: Key)
      modifies this
      ensures Model() == Supersede(old(Model()), key)
    {
      ghost var s := Model();
      if key in entries {
        var entry := entries[key];
        for i := 0 to |KINDS|
          invariant entry.authority == entries[key].authority
          invariant forall kind :: kind in KINDS[..i] ==> Fact(entry, kind) == SupersededFact(s, Slot(key, kind))
          invariant forall kind :: kind !in KINDS[..i] ==> Fact(entry, kind) == Fact(entries[key], kind)
        {
          var slot := Slot(key, KINDS[i]);
          if Active(resourceControls, slot) {
            var r := Fact(entry, KINDS[i]);
            entry := WithFact(entry, KINDS[i],
                       r.(status := OutdatedStatus(r), requestEpoch := resourceControls[slot].desired + 1));
          }
        }
        EveryKind();
        assert KINDS[..|KINDS|] == KINDS;
        assert entry.git == Fact(entry, Git) && entry.agents == Fact(entry, Agents) && entry.providers == Fact(entry, Providers);
        entries := entries[key := entry];
      }
      SupersedeRunning(key);
      overtaken := MarkAll(overtaken, SlotsOf({key}), |sent|);
    }
  }
}