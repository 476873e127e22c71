/** What a call of the facts coordinator does to its slot, said by the store's own fields
    (`src/stores/projectFactsStore.ts`). */
module FactsRequests {
  import opened Common
  import opened Paths
  import opened ProjectFacts
  import opened FactsFreshness

  // ---- ensuring ---------------------------------------------------------------------------

  /** No request loop of the slot is unfinished. */
  predicate AtRest(s: State, slot: Slot) { slot in s.controls ==> s.controls[slot].activity.Resting? }

  /** The last request failed, and it is too early for another one. */
  predicate Waits(s: State, slot: Slot, now: int) {
    slot in s.controls && s.controls[slot].retryAt.Some? && now < s.controls[slot].retryAt.value
  }

  /** Ready, and less than 5 seconds old for git, less than 30 for the others. */
  predicate Young(s: State, slot: Slot, now: int) {
    var r := ResourceAt(s, slot);
    r.status.Ready? && r.updatedAt.Some? && now < r.updatedAt.value + match slot.kind case Git => 5000 case Agents => 30000 case Providers => 30000
  }

  /** After the entry was touched, the slot has a control and its resource is the one
      from before. */
  lemma TouchedSlot(s: State, slot: Slot)
    ensures var t := WithControl(Touch(s, slot.key), slot);
            && slot in t.controls && slot.key in t.entries && ResourceAt(t, slot) == ResourceAt(s, slot)
            && t.sent == s.sent && t.flying == s.flying
            && t.controls[slot] == (if slot in s.controls then s.controls[slot].(retireWhenIdle := false)
                                    else NewControl(ResourceAt(s, slot).requestEpoch))
  {
    TouchKeepsEntry(s, slot.key);
    TouchMarks(s, slot.key, slot);
    if slot in s.controls { TouchKeepsControl(s, slot); } else { TouchAddsNoControl(s, slot); }
  }

  /** While a request is under way its fact keeps its value, stale, or is loading; what was
      noted for the slot is taken up by the request. */
  lemma SendMeans(s: State, slot: Slot)
    requires slot in s.controls && slot.key in s.entries
    ensures var s', c, r := Send(s, slot), s.controls[slot], ResourceAt(s, slot);
            && ResourceAt(s', slot) == Resource(r.value, if r.value.Some? then Stale else Loading, r.updatedAt, c.desired)
            && slot in s'.controls && s'.controls[slot].activity == Running(|s.sent|, c.desired)
            && !s'.controls[slot].pendingForce && !s'.controls[slot].pendingRefresh
            && s'.controls[slot].retryAt == c.retryAt && s'.controls[slot].failures == c.failures
            && s'.sent == s.sent + [Request(slot, c.desired, c.pendingForce)]
            && s'.entries.Keys == s.entries.Keys && s'.order == s.order && s'.active == s.active
            && forall x :: x != slot ==> ResourceAt(s', x) == ResourceAt(s, x) && (x in s'.controls <==> x in s.controls)
  {
    var s' := Send(s, slot);
    forall x | x != slot ensures ResourceAt(s', x) == ResourceAt(s, x) {
      if x.key == slot.key { match x.kind case Git => case Agents => case Providers => }
    }
  }

  /** One request of the slot was sent, of a generation after all completed ones; its value
      is kept while it runs. */
  predicate Sends(s: State, s': State, slot: Slot, completed: int) {
    && |s'.sent| == |s.sent| + 1 && s.sent <= s'.sent && s'.flying == s.flying + {|s.sent|}
    && s'.sent[|s.sent|].slot == slot && s'.sent[|s.sent|].generation > completed
    && slot in s'.controls && s'.controls[slot].activity == Running(|s.sent|, s'.sent[|s.sent|].generation)
    && ResourceAt(s', slot).value == ResourceAt(s, slot).value
    && ResourceAt(s', slot).status == (if ResourceAt(s, slot).value.Some? then Stale else Loading)
  }

  /** An ensure that is not forced sends one request of its slot, if and only if the
      slot is at rest, its value is not young and no retry time stands. Otherwise
      nothing is sent. */
  lemma UnforcedEnsureSendsIff(s: State, slot: Slot, now: int)
    ensures var s' := Ensure(s, slot, false, now);
            if AtRest(s, slot) && !Young(s, slot, now) && !Waits(s, slot, now)
            then Sends(s, s', slot, if slot in s.controls then s.controls[slot].completed else 0)
            else s'.sent == s.sent && s'.flying == s.flying
  {
    TouchedSlot(s, slot);
    UnforcedTouched(WithControl(Touch(s, slot.key), slot), slot, now);
  }

  lemma UnforcedTouched(t: State, slot: Slot, now: int)
    requires slot in t.controls && slot.key in t.entries
    ensures var s' := EnsureTouched(t, slot, false, now);
            if AtRest(t, slot) && !Young(t, slot, now) && !Waits(t, slot, now)
            then Sends(t, s', slot, t.controls[slot].completed)
            else s'.sent == t.sent && s'.flying == t.flying
  {
    var c := t.controls[slot];
    SendMeans(PutControl(t, slot, c.(desired := if c.desired <= c.completed then c.completed + 1 else c.desired)), slot);
  }

  /** After an ensure, a request of the slot is under way, or a retry time stands, or
      the value is ready and less than 5 seconds old for git, 30 for the others. */
  lemma EnsuredIsServed(s: State, slot: Slot, now: int)
    ensures var s' := Ensure(s, slot, false, now);
            && slot in s'.controls
            && var c, r := s'.controls[slot], ResourceAt(s', slot);
               || !c.activity.Resting?
               || (c.retryAt.Some? && now < c.retryAt.value)
               || (r.status.Ready? && r.updatedAt.Some?
                   && (slot.kind.Git? ==> now - r.updatedAt.value < 5000)
                   && (!slot.kind.Git? ==> now - r.updatedAt.value < 30000))
  {
    var t := WithControl(Touch(s, slot.key), slot);
    TouchedSlot(s, slot);
    EnsureTouchedServes(t, slot, now);
  }

  lemma EnsureTouchedServes(t: State, slot: Slot, now: int)
    requires slot in t.controls
    ensures var s' := EnsureTouched(t, slot, false, now);
            && slot in s'.controls
            && var c, r := s'.controls[slot], ResourceAt(s', slot);
               || !c.activity.Resting?
               || (c.retryAt.Some? && now < c.retryAt.value)
               || (s' == t && Young(t, slot, now))
  {
  }

  /** An ensure that is not forced joins an unfinished request; if that one is out of
      date, or its loop has ended, the refresh is noted, and otherwise the control is
      left alone. */
  lemma UnforcedEnsureJoins(s: State, slot: Slot, now: int)
    requires Reachable(s) && !AtRest(s, slot) && !Young(s, slot, now)
    ensures var c, c' := s.controls[slot], Ensure(s, slot, false, now).controls[slot];
            && c'.activity == c.activity && c'.desired == c.desired && c'.pendingForce == c.pendingForce && !c'.retireWhenIdle
            && (c'.pendingRefresh <==>
                  c.pendingRefresh || c.activity.Exited? || Mark(s.overtaken, slot) > c.activity.request)
  {
    ReachableIsInv(s);
    assert SlotOk(s, slot);
    TouchedSlot(s, slot);
  }

  // ---- replies ----------------------------------------------------------------------------

  /** The reply of a request that was not overtaken ends the loop. A success clears the
      failures; a failure keeps the value, shows the error, and sets the retry time 5
      seconds ahead, then 30, then 120 each time. */
  lemma CurrentReplyMeans(s: State, id: RequestId, ok: bool, now: int)
    requires Reachable(s) && id in s.flying && id < |s.sent| && Mark(s.overtaken, s.sent[id].slot) <= id
    ensures var slot, s' := s.sent[id].slot, Reply(s, id, ok, now);
            && slot in s.controls && slot in s'.controls
            && s'.sent == s.sent && s'.flying == s.flying - {id}
            && var c, r, c', r' := s.controls[slot], ResourceAt(s, slot), s'.controls[slot], ResourceAt(s', slot);
               && c'.activity.Exited? && c'.completed == Max(c.completed, s.sent[id].generation)
               && (ok ==> c'.failures == 0 && c'.retryAt.None? && r'.value == Some(id) && r'.updatedAt == Some(now) && r'.status.Ready?)
               && (!ok ==>
                     && c'.failures == c.failures + 1 && r'.status.ErrorStatus?
                     && r'.value == r.value && r'.updatedAt == r.updatedAt
                     && (c.failures == 0 ==> c'.retryAt == Some(now + 5000))
                     && (c.failures == 1 ==> c'.retryAt == Some(now + 30000))
                     && (c.failures >= 2 ==> c'.retryAt == Some(now + 120000)))
  {
    ReachableIsInv(s);
    assert FlyingOk(s, id) && SlotOk(s, s.sent[id].slot);
    ReplyIsLandedThenContinued(s, id, ok, now);
  }

  /** The reply of an overtaken request leaves the value, the retry time and the number
      of failures alone, whether it succeeded or not. */
  lemma OvertakenReplyMeans(s: State, id: RequestId, ok: bool, now: int)
    requires Reachable(s) && id in s.flying && id < |s.sent| && Mark(s.overtaken, s.sent[id].slot) > id
    ensures var slot, s' := s.sent[id].slot, Reply(s, id, ok, now);
            && slot in s.controls && slot in s'.controls
            && ResourceAt(s', slot).value == ResourceAt(s, slot).value
            && ResourceAt(s', slot).updatedAt == ResourceAt(s, slot).updatedAt
            && s'.controls[slot].retryAt == s.controls[slot].retryAt && s'.controls[slot].failures == s.controls[slot].failures
            && (s'.controls[slot].activity.Exited? <==>
                  s.controls[slot].retireWhenIdle || !(s.controls[slot].pendingForce || s.controls[slot].pendingRefresh))
  {
    ReachableIsInv(s);
    assert FlyingOk(s, id) && SlotOk(s, s.sent[id].slot);
    ReplyIsLandedThenContinued(s, id, ok, now);
  }

  // ---- invalidating and rebinding ---------------------------------------------------------------

  /** An invalidated fact keeps its value and is no longer ready, so that the next
      ensure does not serve it. */
  lemma InvalidateMeans(s: State, slot: Slot)
    requires Reachable(s) && slot.key in s.entries
    ensures var s' := Invalidate(s, slot);
            var r, r' := ResourceAt(s, slot), ResourceAt(s', slot);
            && r'.value == r.value && r'.updatedAt == r.updatedAt
            && r'.status == (if r.value.Some? then Stale else IdleStatus)
            && s'.sent == s.sent && s'.order == s.order && s'.entries.Keys == s.entries.Keys
            && forall x :: x != slot ==> ResourceAt(s', x) == ResourceAt(s, x)
  {
    var s' := Invalidate(s, slot);
    forall x | x != slot ensures ResourceAt(s', x) == ResourceAt(s, x) {
      if x.key == slot.key { match x.kind case Git => case Agents => case Providers => }
    }
  }

  /** Invalidation outdates every generation so far. A refresh is noted if a loop of the slot
      is unfinished and not told to stop; the retry time and the failures stay. */
  lemma InvalidateControlMeans(s: State, slot: Slot)
    requires slot.key in s.entries && slot in s.controls
    ensures var s' := Invalidate(s, slot);
            && slot in s'.controls
            && var c, c' := s.controls[slot], s'.controls[slot];
               && c'.desired > c.desired && c'.desired > c.completed && ResourceAt(s', slot).requestEpoch == c'.desired
               && c' == c.(desired := c'.desired, pendingRefresh := c'.pendingRefresh)
               && (c'.pendingRefresh <==> c.pendingRefresh || (!c.activity.Resting? && !c.retireWhenIdle))
  {
  }

  /** A fact that is invalidated while its request runs is requested again as soon as
      that request returns. */
  lemma InvalidatedRequestIsRepeated(s: State, slot: Slot, ok: bool, now: int)
    requires Reachable(s) && slot in s.controls && s.controls[slot].activity.Running? && !s.controls[slot].retireWhenIdle
    ensures var id := s.controls[slot].activity.request;
            var s' := Reply(Invalidate(s, slot), id, ok, now);
            && |s'.sent| == |s.sent| + 1 && s'.sent[|s.sent|].slot == slot && |s.sent| in s'.flying
            && ResourceAt(s', slot).value == ResourceAt(s, slot).value
  {
    ReachableIsInv(s);
    assert SlotOk(s, slot);
    LeadsOn(Next, START, s, InvalidateStep(slot));
    var t := Invalidate(s, slot);
    PendingRefreshIsSent(t, slot, ok, now);
    InvalidateMeans(s, slot);
    ReachableIsInv(t);
    assert SlotOk(t, slot);
    var id := s.controls[slot].activity.request;
    if ok { ReplyIsStoredIffCurrent(t, id, now); } else { FailedReplyStoresNothing(t, id, now); }
  }

  /** Binding stores the authority. If it was another one, every fact of the project is
      forgotten with its failures, and what runs is repeated; if it was the same, the
      facts stay. */
  lemma BindMeans(s: State, key: Key, authority: Option<string>, kind: Kind)
    ensures var s', slot := Bind(s, key, authority), Slot(key, kind);
            var same := (if key in s.entries then s.entries[key].authority else None) == authority;
            && key in s'.entries && s'.entries[key].authority == authority && s'.sent == s.sent
            && ResourceAt(s', slot) == (if same then ResourceAt(s, slot) else Resource(None, IdleStatus, None, 0))
            && (slot in s'.controls <==> slot in s.controls)
            && (slot in s.controls && !same ==>
                  var c, c' := s.controls[slot], s'.controls[slot];
                  && c'.retryAt.None? && c'.failures == 0 && c'.desired > c.desired && !c'.retireWhenIdle
                  && (c'.pendingRefresh <==> c.pendingRefresh || !c.activity.Resting?))
  {
    var slot := Slot(key, kind);
    TouchMarks(s, key, slot);
    TouchKeepsEntry(s, key);
    if slot in s.controls { TouchKeepsControl(s, slot); } else { TouchAddsNoControl(s, slot); }
  }

  // ---- retention ----------------------------------------------------------------------------------

  /** A touched project is the last one in access order; the others keep their order,
      and of more than three the one used longest ago leaves it. */
  lemma TouchMeans(s: State, key: Key)
    requires Reachable(s)
    ensures var order := Touch(s, key).order;
            && order != [] && order[|order| - 1] == key
            && order[..|order| - 1] == (if key !in s.order && |s.order| == 3 then s.order[1..] else Without(s.order, key))
  {
    ReachableIsInv(s);
    assert OrderOk(s);
    TouchedOrder(s.order, key);
  }

  lemma {:induction false} TouchedOrder(order: seq<Key>, key: Key)
    requires |order| <= 3
    ensures var r := LastThree(Without(order, key) + [key]);
            && r != [] && r[|r| - 1] == key
            && r[..|r| - 1] == (if key !in order && |order| == 3 then order[1..] else Without(order, key))
  {
    var others := Without(order, key);
    if key in order { WithoutShrinks(order, key); } else { assert others == order; }
    DropFirst(others, key);
  }

  lemma {:induction false} DropFirst(others: seq<Key>, key: Key)
    requires |others| <= 3
    ensures LastThree(others + [key]) == (if |others| == 3 then others[1..] else others) + [key]
  {
    if |others| == 3 { assert (others + [key])[1..] == others[1..] + [key]; }
  }

  /** Naming no active project empties the access order. Naming one that has an entry puts
      it last, as touching it does; naming an unknown one leaves the order alone. */
  lemma PruneMeans(s: State, active: Option<Key>)
    requires Reachable(s)
    ensures var order := Prune(s, active).order;
            && Prune(s, active).active == active
            && (active == None ==> order == [])
            && (forall key :: active == Some(key) && key !in s.entries ==> order == s.order)
            && (forall key :: active == Some(key) && key in s.entries ==> order == Touch(s, key).order)
  {
    ReachableIsInv(s);
    assert OrderOk(s);
    if active.Some? {
      SwitchMarks(s, active, Slot(active.value, Git));
      var others := Without(s.order, active.value);
      RestrictAll(others, s.entries.Keys);
      assert others + [] == others;
    }
  }

  lemma {:induction false} RestrictAll(order: seq<Key>, keep: set<Key>)
    requires forall k :: k in order ==> k in keep
    ensures Restrict(order, keep) == order
  {
    if order != [] {
      assert order == [order[0]] + order[1..];
      RestrictAll(order[1..], keep);
    }
  }

  lemma {:induction false} WithoutShrinks(s: seq<Key>, x: Key)
    requires x in s
    ensures |Without(s, x)| < |s|
  {
    if s[0] != x { WithoutShrinks(s[1..], x); }
  }

  /** Evicted projects are dropped at once, unless a request of theirs is unfinished;
      the others keep what they have. */
  lemma RetireMeans(s: State, keep: set<Key>, key: Key)
    ensures var s' := Retire(s, keep);
            var busy := exists slot :: slot in s.controls && slot.key == key && !s.controls[slot].activity.Resting?;
            && (key in s'.entries <==> key in s.entries && (key in keep || busy))
            && (key in s'.entries ==> s'.entries[key] == s.entries[key])
            && (key in s.entries && key !in keep && !busy ==> forall slot :: slot in s'.controls ==> slot.key != key)
  {
    if slot :| slot in s.controls && slot.key == key && !s.controls[slot].activity.Resting? {
      ActiveIsBusy(s.controls, slot);
    }
  }

  /** What runs for an evicted project is told to stop and not to be repeated; controls of
      projects that stay are left alone. */
  lemma RetiredControlMeans(s: State, keep: set<Key>, slot: Slot)
    requires slot in s.controls && slot.key in s.entries && (slot.key in keep || !s.controls[slot].activity.Resting?)
    ensures var s' := Retire(s, keep);
            && slot in s'.controls
            && var c, c' := s.controls[slot], s'.controls[slot];
               if slot.key in keep then c' == c
               else && c'.retireWhenIdle && !c'.pendingRefresh && !c'.pendingForce && c'.desired > c.desired && c'.activity == c.activity
  {
    if !s.controls[slot].activity.Resting? { ActiveIsBusy(s.controls, slot); }
  }

  /** Leaving a project: what runs for it is not to be repeated, and keeps its value. */
  lemma SwitchAwayMeans(s: State, active: Option<Key>, slot: Slot, ok: bool, now: int)
    requires Reachable(s) && s.active == Some(slot.key) && active != s.active
    requires slot in s.controls && s.controls[slot].activity.Running?
    ensures var s' := Reply(Prune(s, active), s.controls[slot].activity.request, ok, now);
            && s'.sent == s.sent && slot in s'.controls && s'.controls[slot].activity.Exited?
            && ResourceAt(s', slot).value == ResourceAt(s, slot).value
            && ResourceAt(s', slot).status == (if ResourceAt(s, slot).value.Some? then Stale else IdleStatus)
            && ResourceAt(s', slot).requestEpoch > s.controls[slot].activity.generation
  {
    ReachableIsInv(s);
    assert SlotOk(s, slot);
    SwitchedControl(s, active, slot);
    ReplyNotRepeated(Prune(s, active), slot, s.controls[slot].activity.request, ok, now);
  }

  lemma ReplyNotRepeated(s: State, slot: Slot, id: RequestId, ok: bool, now: int)
    requires id in s.flying && id < |s.sent| && s.sent[id].slot == slot && slot in s.controls
    requires var c := s.controls[slot]; c.desired > s.sent[id].generation && !c.pendingForce && !c.pendingRefresh
    ensures var s' := Reply(s, id, ok, now);
            && s'.sent == s.sent && slot in s'.controls && s'.controls[slot].activity.Exited?
            && ResourceAt(s', slot) == ResourceAt(s, slot)
  {
    ReplyIsLandedThenContinued(s, id, ok, now);
  }

  lemma SwitchedControl(s: State, active: Option<Key>, slot: Slot)
    requires s.active == Some(slot.key) && active != s.active && slot.key in s.entries
    requires slot in s.controls && s.controls[slot].activity.Running?
    ensures var s1 := Prune(s, active);
            && s1.sent == s.sent && s1.flying == s.flying && slot in s1.controls && slot.key in s1.entries
            && s1.controls[slot].activity == s.controls[slot].activity && s1.controls[slot].desired > s.controls[slot].desired
            && !s1.controls[slot].pendingForce && !s1.controls[slot].pendingRefresh
            && ResourceAt(s1, slot).value == ResourceAt(s, slot).value
            && ResourceAt(s1, slot).status == (if ResourceAt(s, slot).value.Some? then Stale else IdleStatus)
            && ResourceAt(s1, slot).requestEpoch > s.controls[slot].desired
  {
    SupersedeAt(s, slot.key, slot);
    var t := SwitchTo(s, active);
    ActiveIsBusy(t.controls, slot);
  }

  /** The promise of an evicted project's last request clears the project away; while
      it is in access order, active, or another request is unfinished, it stays. */
  lemma SettleMeans(s: State, slot: Slot)
    requires Reachable(s) && slot in s.controls && s.controls[slot].activity.Exited?
    ensures var s' := Settle(s, slot);
            var others := exists x :: x in s.controls && x != slot && x.key == slot.key && !s.controls[x].activity.Resting?;
            if !s.controls[slot].retireWhenIdle
            then slot in s'.controls && s'.controls[slot] == s.controls[slot].(activity := Resting) && s'.entries == s.entries
            else && slot !in s'.controls
                 && (slot.key in s'.entries <==> s.active == Some(slot.key) || slot.key in s.order || others)
  {
    ReachableIsInv(s);
    assert SlotOk(s, slot);
    var controls := s.controls - {slot};
    if x :| x in s.controls && x != slot && x.key == slot.key && !s.controls[x].activity.Resting? {
      ActiveIsBusy(controls, x);
    }
  }
}
