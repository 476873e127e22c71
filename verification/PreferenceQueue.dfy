/** Optimistic global preferences (`src/stores/settingsStore.ts`).

    A patch is shown at once and saved behind the earlier ones; the shown preferences
    are the committed ones with the pending patches laid over them. Loads run
    alongside and are dropped when a patch was issued since they began. */
module PreferenceQueue {
  import opened Common

  /** Flat preferences and the nested notification switches. */
  datatype Preferences = Preferences(fields: map<string, string>, notifications: map<string, bool>)

  /** A partial change; absent keys keep their value. */
  datatype Patch = Patch(fields: map<string, string>, notifications: map<string, bool>)

  function MergePatch(p: Preferences, patch: Patch): Preferences {
    Preferences(p.fields + patch.fields, p.notifications + patch.notifications)
  }

  function MergeAll(p: Preferences, patches: seq<Patch>): Preferences {
    if patches == [] then p else MergePatch(MergeAll(p, patches[..|patches| - 1]), patches[|patches| - 1])
  }

  datatype Pending = Pending(epoch: nat, patch: Patch)

  function Patches(pending: seq<Pending>): (r: seq<Patch>)
    ensures |r| == |pending|
  {
    seq(|pending|, i requires 0 <= i < |pending| => pending[i].patch)
  }

  /** A load: waiting for earlier saves, holding what it read, or about to publish. */
  datatype Load =
    | Waiting(saveEpoch: nat)
    | Holding(saveEpoch: nat, read: Preferences)
    | Publishing(saveEpoch: nat, read: Preferences)

  datatype Outcome = Outcome(patch: Patch, saved: bool)

  /** The store, its module-level variables and the backend it saves to. `settled`
      remembers the fate of every finished patch in issue order. */
  datatype State = State(
    shown: Preferences,
    committed: Option<Preferences>,
    pending: seq<Pending>,
    saveEpoch: nat,
    loadEpoch: nat,
    globalSaving: bool,
    loads: map<nat, Load>,
    backend: Preferences,
    settled: seq<Outcome>)

  function Initial(shown: Preferences, backend: Preferences): State {
    State(shown, None, [], 0, 0, false, map[], backend, [])
  }

  /** `visibleGlobalPreferences`, given what counts as committed. */
  function Visible(committed: Preferences, pending: seq<Pending>): Preferences {
    MergeAll(committed, Patches(pending))
  }

  datatype Step =
    | Persist(patch: Patch)
    | SaveSettles(ok: bool)
    | LoadBegins
    | LoadReads(epoch: nat)
    | LoadReturns(epoch: nat)
    | LoadPublishes(epoch: nat)

  predicate IsCurrent(s: State, epoch: nat, saveEpoch: nat) {
    epoch == s.loadEpoch && saveEpoch == s.saveEpoch
  }

  function PersistGlobalPatch(s: State, patch: Patch): State {
    var epoch := s.saveEpoch + 1;
    var committed := if s.pending == [] then s.shown else CommittedOf(s);
    var pending := s.pending + [Pending(epoch, patch)];
    s.(shown := Visible(committed, pending), committed := Some(committed), pending := pending,
       saveEpoch := epoch, loadEpoch := s.loadEpoch + 1, globalSaving := true)
  }

  // `Inv` shows that something is committed whenever a patch is pending, so the
  // fallback is never taken.
  function CommittedOf(s: State): Preferences {
    if s.committed.Some? then s.committed.value else s.shown
  }

  /** The save at the head of the queue finishes; saves run one at a time. */
  function SettleSave(s: State, ok: bool): State {
    if s.pending == [] then s
    else
      var head, rest := s.pending[0].patch, s.pending[1..];
      var backend := if ok then MergePatch(s.backend, head) else s.backend;
      var committed := if ok then backend else CommittedOf(s);
      s.(shown := Visible(committed, rest), committed := Some(committed), pending := rest,
         globalSaving := rest != [], backend := backend, settled := s.settled + [Outcome(head, ok)])
  }

  function BeginLoad(s: State): State {
    s.(loadEpoch := s.loadEpoch + 1, loads := s.loads[s.loadEpoch + 1 := Waiting(s.saveEpoch)])
  }

  /** Every save issued before the load began has settled. */
  predicate Drained(s: State, saveEpoch: nat) {
    forall p :: p in s.pending ==> p.epoch > saveEpoch
  }

  function ReadLoad(s: State, epoch: nat): State {
    if epoch in s.loads && s.loads[epoch].Waiting? && Drained(s, s.loads[epoch].saveEpoch) then
      if IsCurrent(s, epoch, s.loads[epoch].saveEpoch)
      then s.(loads := s.loads[epoch := Holding(s.loads[epoch].saveEpoch, s.backend)])
      else s.(loads := s.loads - {epoch})
    else s
  }

  function ReturnLoad(s: State, epoch: nat): State {
    if epoch in s.loads && s.loads[epoch].Holding? then
      var load := s.loads[epoch];
      if IsCurrent(s, epoch, load.saveEpoch)
      then s.(committed := Some(load.read),
              loads := s.loads[epoch := Publishing(load.saveEpoch, Visible(load.read, s.pending))])
      else s.(loads := s.loads - {epoch})
    else s
  }

  function PublishLoad(s: State, epoch: nat): State {
    if epoch in s.loads && s.loads[epoch].Publishing? then
      var load := s.loads[epoch];
      s.(shown := if IsCurrent(s, epoch, load.saveEpoch) then load.read else s.shown, loads := s.loads - {epoch})
    else s
  }

  function Next(s: State, step: Step): State {
    match step
    case Persist(patch) => PersistGlobalPatch(s, patch)
    case SaveSettles(ok) => SettleSave(s, ok)
    case LoadBegins => BeginLoad(s)
    case LoadReads(epoch) => ReadLoad(s, epoch)
    case LoadReturns(epoch) => ReturnLoad(s, epoch)
    case LoadPublishes(epoch) => PublishLoad(s, epoch)
  }

  function Run(s: State, steps: seq<Step>): State {
    if steps == [] then s else Next(Run(s, steps[..|steps| - 1]), steps[|steps| - 1])
  }

  // ---- what every step keeps --------------------------------------------------------

  /** A load that is still current has nothing pending and holds what is saved. */
  ghost predicate LoadOk(s: State, epoch: nat) {
    epoch in s.loads ==>
      var load := s.loads[epoch];
      && epoch <= s.loadEpoch && load.saveEpoch <= s.saveEpoch
      && (IsCurrent(s, epoch, load.saveEpoch) && !load.Waiting? ==> s.pending == [] && load.read == s.backend)
  }

  ghost predicate Inv(s: State) {
    && (forall p :: p in s.pending ==> p.epoch <= s.saveEpoch)
    && (s.globalSaving <==> s.pending != [])
    && (s.pending != [] ==> s.committed.Some? && s.shown == Visible(s.committed.value, s.pending))
    && (forall epoch :: LoadOk(s, epoch))
  }

  lemma {:induction false} PatchesAppend(pending: seq<Pending>, p: Pending)
    ensures Patches(pending + [p]) == Patches(pending) + [p.patch]
  {
  }

  lemma DrainedIsEmpty(s: State)
    requires forall p :: p in s.pending ==> p.epoch <= s.saveEpoch
    ensures Drained(s, s.saveEpoch) ==> s.pending == []
  {
    if s.pending != [] {
      assert s.pending[0] in s.pending;
    }
  }

  lemma NextKeepsInv(s: State, step: Step)
    requires Inv(s)
    ensures Inv(Next(s, step))
  {
    var s' := Next(s, step);
    forall epoch ensures LoadOk(s', epoch) {
      assert LoadOk(s, epoch);
      if step.LoadReads? {
        DrainedIsEmpty(s);
      }
      if step.LoadReturns? && epoch in s.loads {
        assert s.pending == [] ==> Patches(s.pending) == [];
      }
    }
    if step.LoadReturns? || step.LoadPublishes? {
      assert LoadOk(s, step.epoch);
    }
    if step.SaveSettles? {
      assert forall p :: p in s'.pending ==> p in s.pending;
    }
  }

  lemma {:induction false} RunKeepsInv(shown: Preferences, backend: Preferences, steps: seq<Step>)
    ensures Inv(Run(Initial(shown, backend), steps))
    decreases |steps|
  {
    if steps != [] {
      RunKeepsInv(shown, backend, steps[..|steps| - 1]);
      NextKeepsInv(Run(Initial(shown, backend), steps[..|steps| - 1]), steps[|steps| - 1]);
    }
  }

  /** Whatever was shown before, a load that publishes shows what is saved. */
  lemma {:induction false} PublishedLoadShowsBackend(shown: Preferences, backend: Preferences, steps: seq<Step>, epoch: nat)
    ensures var s := Run(Initial(shown, backend), steps);
            epoch in s.loads && s.loads[epoch].Publishing? && IsCurrent(s, epoch, s.loads[epoch].saveEpoch)
            ==> PublishLoad(s, epoch).shown == s.backend && s.pending == []
  {
    RunKeepsInv(shown, backend, steps);
    assert LoadOk(Run(Initial(shown, backend), steps), epoch);
  }

  // ---- what is shown ------------------------------------------------------------------

  /** The patches that were saved, in issue order. */
  function Saved(settled: seq<Outcome>): seq<Patch> {
    if settled == [] then []
    else
      var last := settled[|settled| - 1];
      Saved(settled[..|settled| - 1]) + if last.saved then [last.patch] else []
  }

  lemma {:induction false} MergeAllAppend(p: Preferences, a: seq<Patch>, b: seq<Patch>)
    ensures MergeAll(p, a + b) == MergeAll(MergeAll(p, a), b)
    decreases |b|
  {
    if b == [] {
      assert a + b == a;
    } else {
      assert (a + b)[..|a + b| - 1] == a + b[..|b| - 1];
      MergeAllAppend(p, a, b[..|b| - 1]);
    }
  }

  lemma MergeAllOne(p: Preferences, patch: Patch)
    ensures MergeAll(p, [patch]) == MergePatch(p, patch)
  {
    assert [patch][..0] == [];
    assert MergeAll(p, []) == p;
  }

  lemma {:induction false} SavedAppend(settled: seq<Outcome>, o: Outcome)
    ensures Saved(settled + [o]) == Saved(settled) + if o.saved then [o.patch] else []
  {
    assert (settled + [o])[..|settled|] == settled;
  }

  /** Laying one map over two others makes them equal exactly if they agreed elsewhere. */
  lemma OverlayEqual<V>(p: map<string, V>, q: map<string, V>, over: map<string, V>)
    ensures p + over == q + over <==> p - over.Keys == q - over.Keys
  {
    if p - over.Keys == q - over.Keys {
      assert p + over == (p - over.Keys) + over;
      assert q + over == (q - over.Keys) + over;
    }
    if p + over == q + over {
      assert (p + over) - over.Keys == p - over.Keys;
      assert (q + over) - over.Keys == q - over.Keys;
    }
  }

  /** Several patches as one. */
  function Combine(patches: seq<Patch>): Patch {
    if patches == [] then Patch(map[], map[])
    else
      var init, last := Combine(patches[..|patches| - 1]), patches[|patches| - 1];
      Patch(init.fields + last.fields, init.notifications + last.notifications)
  }

  lemma {:induction false} MergeAllIsCombined(p: Preferences, patches: seq<Patch>)
    ensures MergeAll(p, patches) == MergePatch(p, Combine(patches))
    decreases |patches|
  {
    if patches == [] {
      assert p.fields + map[] == p.fields && p.notifications + map[] == p.notifications;
    } else {
      var init, last := patches[..|patches| - 1], patches[|patches| - 1];
      MergeAllIsCombined(p, init);
      OverlayAssociates(p.fields, Combine(init).fields, last.fields);
      OverlayAssociates(p.notifications, Combine(init).notifications, last.notifications);
    }
  }

  lemma OverlayAssociates<V>(a: map<string, V>, b: map<string, V>, c: map<string, V>)
    ensures (a + b) + c == a + (b + c)
  {
  }

  /** The two agree on every preference that no patch sets. */
  predicate AgreeOutside(a: Preferences, b: Preferences, patches: seq<Patch>) {
    var c := Combine(patches);
    a.fields - c.fields.Keys == b.fields - c.fields.Keys
    && a.notifications - c.notifications.Keys == b.notifications - c.notifications.Keys
  }

  lemma PatchesHideDifference(a: Preferences, b: Preferences, patches: seq<Patch>)
    ensures MergeAll(a, patches) == MergeAll(b, patches) <==> AgreeOutside(a, b, patches)
  {
    MergeAllIsCombined(a, patches);
    MergeAllIsCombined(b, patches);
    OverlayEqual(a.fields, b.fields, Combine(patches).fields);
    OverlayEqual(a.notifications, b.notifications, Combine(patches).notifications);
  }

  /** The step makes the client know what is stored: a save succeeds, or a load is
      published. */
  predicate Syncs(s: State, step: Step) {
    || (step.SaveSettles? && step.ok && s.pending != [])
    || (step.LoadPublishes? && step.epoch in s.loads && s.loads[step.epoch].Publishing?
        && IsCurrent(s, step.epoch, s.loads[step.epoch].saveEpoch))
  }

  predicate Synced(start: State, steps: seq<Step>) {
    steps != [] && (Synced(start, steps[..|steps| - 1]) || Syncs(Run(start, steps[..|steps| - 1]), steps[|steps| - 1]))
  }

  /** The backend holds the saved patches; the screen shows the pending ones over what
      is stored, or over what was shown first as long as the client has not synced. */
  ghost predicate Explained(s: State, synced: bool, shown: Preferences, backend: Preferences) {
    var base := if synced then s.backend else shown;
    && s.backend == MergeAll(backend, Saved(s.settled)) && (!synced ==> Saved(s.settled) == [])
    && s.shown == MergeAll(base, Patches(s.pending))
    && (s.pending != [] ==> s.committed == Some(base))
  }

  lemma PersistExplained(s: State, synced: bool, shown: Preferences, backend: Preferences, patch: Patch)
    requires Inv(s) && Explained(s, synced, shown, backend)
    ensures Explained(PersistGlobalPatch(s, patch), synced, shown, backend)
  {
    if s.pending == [] { assert Patches(s.pending) == []; }
  }

  lemma HeadThenRest(base: Preferences, pending: seq<Pending>)
    requires pending != []
    ensures MergeAll(base, Patches(pending)) == MergeAll(MergePatch(base, pending[0].patch), Patches(pending[1..]))
  {
    assert Patches(pending) == [pending[0].patch] + Patches(pending[1..]);
    MergeAllAppend(base, [pending[0].patch], Patches(pending[1..]));
    MergeAllOne(base, pending[0].patch);
  }

  lemma SaveExplained(s: State, synced: bool, shown: Preferences, backend: Preferences)
    requires Inv(s) && Explained(s, synced, shown, backend) && s.pending != []
    ensures Explained(SettleSave(s, true), true, shown, backend)
  {
    var head := s.pending[0].patch;
    SavedAppend(s.settled, Outcome(head, true));
    MergeAllAppend(backend, Saved(s.settled), [head]);
    MergeAllOne(MergeAll(backend, Saved(s.settled)), head);
  }

  lemma FailureExplained(s: State, synced: bool, shown: Preferences, backend: Preferences)
    requires Inv(s) && Explained(s, synced, shown, backend) && s.pending != []
    ensures Explained(SettleSave(s, false), synced, shown, backend)
  {
    SavedAppend(s.settled, Outcome(s.pending[0].patch, false));
    assert Saved(s.settled + [Outcome(s.pending[0].patch, false)]) == Saved(s.settled);
  }

  lemma LoadExplained(s: State, synced: bool, shown: Preferences, backend: Preferences, step: Step)
    requires Inv(s) && Explained(s, synced, shown, backend) && (step.LoadReads? || step.LoadReturns? || step.LoadPublishes?)
    ensures Explained(Next(s, step), synced || Syncs(s, step), shown, backend)
  {
    assert LoadOk(s, step.epoch);
    if s.pending == [] { assert Patches(s.pending) == []; }
  }

  lemma StepExplained(s: State, synced: bool, shown: Preferences, backend: Preferences, step: Step)
    requires Inv(s) && Explained(s, synced, shown, backend)
    ensures Explained(Next(s, step), synced || Syncs(s, step), shown, backend)
  {
    match step
    case Persist(patch) => PersistExplained(s, synced, shown, backend, patch);
    case SaveSettles(ok) =>
      if s.pending != [] {
        if ok { SaveExplained(s, synced, shown, backend); } else { FailureExplained(s, synced, shown, backend); }
      }
    case LoadBegins =>
    case LoadReads(_) => LoadExplained(s, synced, shown, backend, step);
    case LoadReturns(_) => LoadExplained(s, synced, shown, backend, step);
    case LoadPublishes(_) => LoadExplained(s, synced, shown, backend, step);
  }

  lemma {:induction false} RunExplained(shown: Preferences, backend: Preferences, steps: seq<Step>)
    ensures Explained(Run(Initial(shown, backend), steps), Synced(Initial(shown, backend), steps), shown, backend)
    decreases |steps|
  {
    if steps != [] {
      var init := steps[..|steps| - 1];
      RunExplained(shown, backend, init);
      RunKeepsInv(shown, backend, init);
      StepExplained(Run(Initial(shown, backend), init), Synced(Initial(shown, backend), init), shown, backend, steps[|steps| - 1]);
    }
  }

  /** Over every run, whatever is shown and stored at first: the shown preferences are
      the original ones with all saved and all still pending patches merged in issue
      order and failed ones left out. The originals are the stored preferences once a
      load was published or a save has succeeded, and those shown first until then.
      `globalSaving` holds exactly while patches are pending. */
  lemma {:induction false} ShownIsExplained(shown: Preferences, backend: Preferences, steps: seq<Step>)
    ensures var s := Run(Initial(shown, backend), steps);
            var origin := if Synced(Initial(shown, backend), steps) then backend else shown;
            && s.shown == MergeAll(origin, Saved(s.settled) + Patches(s.pending))
            && s.backend == MergeAll(backend, Saved(s.settled))
            && (s.globalSaving <==> s.pending != [])
  {
    RunExplained(shown, backend, steps);
    RunKeepsInv(shown, backend, steps);
    var s := Run(Initial(shown, backend), steps);
    MergeAllAppend(backend, Saved(s.settled), Patches(s.pending));
    assert [] + Patches(s.pending) == Patches(s.pending);
  }

  /** A successful save leaves what is shown as it is, if and only if the client has
      synced before, or what it showed first agrees with what is stored on every
      preference that no pending patch sets. */
  lemma {:induction false} SaveDoesNotChangeShown(shown: Preferences, backend: Preferences, steps: seq<Step>)
    requires Run(Initial(shown, backend), steps).pending != []
    ensures var s := Run(Initial(shown, backend), steps);
            SettleSave(s, true).shown == s.shown
            <==> Synced(Initial(shown, backend), steps) || AgreeOutside(shown, backend, Patches(s.pending))
  {
    RunExplained(shown, backend, steps);
    var s := Run(Initial(shown, backend), steps);
    HeadThenRest(s.backend, s.pending);
    PatchesHideDifference(s.backend, shown, Patches(s.pending));
    PatchesHideDifference(shown, s.backend, Patches(s.pending));
  }

  /** It happens, and not only once: a patch issued before the first load takes the
      defaults for what is stored, so its save changes what is shown whenever the two
      differ in a preference the patch does not set. */
  lemma SaveBeforeLoadChangesShown(defaults: Preferences, stored: Preferences, patch: Patch, k: string)
    requires k in defaults.fields && k in stored.fields && k !in patch.fields && defaults.fields[k] != stored.fields[k]
    ensures var s := PersistGlobalPatch(Initial(defaults, stored), patch);
            k in s.shown.fields && k in SettleSave(s, true).shown.fields
            && s.shown.fields[k] == defaults.fields[k] && SettleSave(s, true).shown.fields[k] == stored.fields[k]
  {
    var s := PersistGlobalPatch(Initial(defaults, stored), patch);
    assert s.pending == [Pending(1, patch)] && s.pending[1..] == [];
    assert Patches(s.pending) == [patch] && Patches(s.pending[1..]) == [];
    MergeAllOne(defaults, patch);
    assert SettleSave(s, true).shown == MergePatch(stored, patch);
  }

  /** Every issued patch is settled or pending, in issue order. */
  function Issued(steps: seq<Step>): seq<Patch> {
    if steps == [] then []
    else
      var last := steps[|steps| - 1];
      Issued(steps[..|steps| - 1]) + if last.Persist? then [last.patch] else []
  }

  function SettledPatches(settled: seq<Outcome>): (r: seq<Patch>)
    ensures |r| == |settled|
  {
    seq(|settled|, i requires 0 <= i < |settled| => settled[i].patch)
  }

  lemma {:induction false} NoPatchIsLost(s: State, steps: seq<Step>)
    requires s.pending == [] && s.settled == []
    ensures var r := Run(s, steps);
            SettledPatches(r.settled) + Patches(r.pending) == Issued(steps)
    decreases |steps|
  {
    if steps != [] {
      NoPatchIsLost(s, steps[..|steps| - 1]);
      var r, r' := Run(s, steps[..|steps| - 1]), Run(s, steps);
      match steps[|steps| - 1]
      case Persist(patch) =>
        PatchesAppend(r.pending, Pending(r.saveEpoch + 1, patch));
      case SaveSettles(ok) =>
        if r.pending != [] {
          assert Patches(r.pending) == [r.pending[0].patch] + Patches(r.pending[1..]);
          assert SettledPatches(r'.settled) == SettledPatches(r.settled) + [r.pending[0].patch];
        }
      case _ =>
    }
  }

  // ---- key by key ------------------------------------------------------------------------

  /** The value that the last patch setting the preference gives it. */
  function LastField(patches: seq<Patch>, k: string): Option<string> {
    if patches == [] then None
    else if k in patches[|patches| - 1].fields then Some(patches[|patches| - 1].fields[k])
    else LastField(patches[..|patches| - 1], k)
  }

  function LastSwitch(patches: seq<Patch>, k: string): Option<bool> {
    if patches == [] then None
    else if k in patches[|patches| - 1].notifications then Some(patches[|patches| - 1].notifications[k])
    else LastSwitch(patches[..|patches| - 1], k)
  }

  function At<V>(m: map<string, V>, k: string): Option<V> { if k in m then Some(m[k]) else None }

  function Or<V>(a: Option<V>, b: Option<V>): Option<V> { if a.Some? then a else b }

  lemma {:induction false} MergeAllAt(p: Preferences, patches: seq<Patch>, k: string)
    ensures At(MergeAll(p, patches).fields, k) == Or(LastField(patches, k), At(p.fields, k))
    ensures At(MergeAll(p, patches).notifications, k) == Or(LastSwitch(patches, k), At(p.notifications, k))
    decreases |patches|
  {
    if patches != [] { MergeAllAt(p, patches[..|patches| - 1], k); }
  }

  /** Over every run, key by key: a preference or notification switch shows the value of
      the last saved or pending patch that sets it, and that of the originals if none
      does; what is stored is the same for the saved patches alone. */
  lemma {:induction false} ShownKeyByKey(shown: Preferences, backend: Preferences, steps: seq<Step>, k: string)
    ensures var s := Run(Initial(shown, backend), steps);
            var origin := if Synced(Initial(shown, backend), steps) then backend else shown;
            var issued := Saved(s.settled) + Patches(s.pending);
            && At(s.shown.fields, k) == Or(LastField(issued, k), At(origin.fields, k))
            && At(s.shown.notifications, k) == Or(LastSwitch(issued, k), At(origin.notifications, k))
            && At(s.backend.fields, k) == Or(LastField(Saved(s.settled), k), At(backend.fields, k))
            && At(s.backend.notifications, k) == Or(LastSwitch(Saved(s.settled), k), At(backend.notifications, k))
  {
    ShownIsExplained(shown, backend, steps);
    var s := Run(Initial(shown, backend), steps);
    MergeAllAt(if Synced(Initial(shown, backend), steps) then backend else shown, Saved(s.settled) + Patches(s.pending), k);
    MergeAllAt(backend, Saved(s.settled), k);
  }

  // ---- loads -------------------------------------------------------------------------------

  /** A load that begins with nothing pending and meets no disturbance is published: what
      is stored is shown. */
  lemma {:induction false} UndisturbedLoadIsPublished(s: State)
    requires s.pending == []
    ensures var begun := BeginLoad(s);
            var epoch := begun.loadEpoch;
            var done := PublishLoad(ReturnLoad(ReadLoad(begun, epoch), epoch), epoch);
            done.shown == s.backend && done.committed == Some(s.backend) && epoch !in done.loads
  {
    assert Patches([]) == [];
  }

  /** While a patch issued before it is unsaved, a load does not read. */
  lemma LoadWaitsForSaves(s: State)
    requires Inv(s) && s.pending != []
    ensures ReadLoad(BeginLoad(s), s.loadEpoch + 1) == BeginLoad(s)
  {
    assert s.pending[0] in s.pending;
  }

  lemma {:induction false} LoadEpochGrows(s: State, steps: seq<Step>)
    ensures s.loadEpoch <= Run(s, steps).loadEpoch
    decreases |steps|
  {
    if steps != [] { LoadEpochGrows(s, steps[..|steps| - 1]); }
  }

  /** Once a patch was issued or another load begun, an earlier load changes neither what
      is shown nor what counts as committed, whatever happens in between. */
  lemma {:induction false} OvertakenLoadIsDropped(shown: Preferences, backend: Preferences, before: seq<Step>, overtaking: Step, after: seq<Step>, epoch: nat)
    requires overtaking.Persist? || overtaking.LoadBegins?
    requires epoch in Run(Initial(shown, backend), before).loads
    ensures var s := Run(Next(Run(Initial(shown, backend), before), overtaking), after);
            && ReturnLoad(s, epoch).committed == s.committed && ReturnLoad(s, epoch).shown == s.shown
            && PublishLoad(s, epoch).shown == s.shown
  {
    RunKeepsInv(shown, backend, before);
    var s := Run(Initial(shown, backend), before);
    assert LoadOk(s, epoch);
    LoadEpochGrows(Next(s, overtaking), after);
  }

  // ---- the store object -----------------------------------------------------------------

  class SettingsStore {
    var settings: Preferences
    var committedGlobalPreferences: Option<Preferences>
    var pendingGlobalPatches: seq<Pending>
    var globalSaveEpoch: nat
    var globalLoadEpoch: nat
    var globalSaving: bool
    var loads: map<nat, Load>
    ghost var backend: Preferences
    ghost var settled: seq<Outcome>

    ghost function Model(): State
      reads this
    {
      State(settings, committedGlobalPreferences, pendingGlobalPatches, globalSaveEpoch, globalLoadEpoch,
            globalSaving, loads, backend, settled)
    }

    constructor (defaults: Preferences, ghost stored: Preferences)
      ensures Model() == Initial(defaults, stored) && Inv(Model())
    {
      settings, committedGlobalPreferences, pendingGlobalPatches := defaults, None, [];
      globalSaveEpoch, globalLoadEpoch, globalSaving, loads := 0, 0, false, map[];
      backend, settled := stored, [];
    }

    /** Lay the pending patches over the committed preferences, oldest first. */
    method VisibleGlobalPreferences(committed: Preferences) returns (preferences: Preferences)
      ensures preferences == Visible(committed, pendingGlobalPatches)
    {
      preferences := committed;
      var patches := Patches(pendingGlobalPatches);
      var i := 0;
      while i < |pendingGlobalPatches|
        invariant 0 <= i <= |pendingGlobalPatches|
        invariant preferences == MergeAll(committed, patches[..i])
      {
        assert patches[..i + 1][..|patches[..i + 1]| - 1] == patches[..i];
        preferences := MergePatch(preferences, pendingGlobalPatches[i].patch);
        i := i + 1;
      }
      assert patches[..|patches|] == patches;
    }

    method PersistPatch(patch: Patch)
      requires Inv(Model())
      modifies this
      ensures Model() == PersistGlobalPatch(old(Model()), patch) && Inv(Model())
    {
      NextKeepsInv(Model(), Persist(patch));
      globalSaveEpoch := globalSaveEpoch + 1;
      globalLoadEpoch := globalLoadEpoch + 1;
      if pendingGlobalPatches == [] { committedGlobalPreferences := Some(settings); }
      pendingGlobalPatches := pendingGlobalPatches + [Pending(globalSaveEpoch, patch)];
      settings := VisibleGlobalPreferences(committedGlobalPreferences.value);
      globalSaving := true;
    }

    /** The oldest save returns; on success with the preferences the backend has now. */
    method OnSaveSettled(ok: bool, saved: Preferences)
      requires Inv(Model()) && pendingGlobalPatches != []
      requires ok ==> saved == MergePatch(backend, pendingGlobalPatches[0].patch)
      modifies this
      ensures Model() == SettleSave(old(Model()), ok) && Inv(Model())
    {
      NextKeepsInv(Model(), SaveSettles(ok));
      settled := settled + [Outcome(pendingGlobalPatches[0].patch, ok)];
      if ok {
        committedGlobalPreferences := Some(saved);
        backend := saved;
      }
      pendingGlobalPatches := pendingGlobalPatches[1..];
      settings := VisibleGlobalPreferences(committedGlobalPreferences.value);
      globalSaving := pendingGlobalPatches != [];
    }
  }
}
