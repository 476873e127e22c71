/** The normalised workflow cache (`recordWorkflowFacts` in `src/stores/taskStore.ts`).

    Facts belong to one backend session at a time. Snapshots may move the cache to
    a new session, live events may not; sessions left behind are remembered so that
    late facts of theirs stay out; terminal runs are bounded. */
module WorkflowFacts {
  import opened Common
  import opened WorkflowRevision

  const MAX_RETIRED := 8
  const MAX_TERMINAL := 256

  datatype DisplayStatus =
    | Running | Queued | WaitingForConfirmation | Completed | Cancelled | Failed | Interrupted

  predicate IsTerminal(s: DisplayStatus) {
    s.Completed? || s.Cancelled? || s.Failed? || s.Interrupted?
  }

  /** `WorkflowRunSummary`; an empty `sessionId` stands for an absent one, and
      `outcome` for the fields no rule looks into. */
  datatype WorkflowRun = WorkflowRun(
    taskId: string,
    projectId: string,
    identityKey: string,
    identityRevision: string,
    sessionId: string,
    revision: Option<string>,
    updatedAt: string,
    status: DisplayStatus,
    outcome: string)

  function StampOf(r: WorkflowRun): Stamp { Stamp(r.revision, r.updatedAt) }

  function Compare(a: WorkflowRun, b: WorkflowRun): int {
    CompareWorkflowRevision(StampOf(a), StampOf(b))
  }

  /** The cache; an empty `session` means none is established yet. */
  datatype Facts = Facts(byId: map<string, WorkflowRun>, session: string, retired: seq<string>)

  const EMPTY_FACTS := Facts(map[], "", [])

  predicate IsComplete(r: WorkflowRun) {
    r.taskId != "" && r.projectId != "" && r.identityKey != "" && r.identityRevision != ""
  }

  function LastEight(s: seq<string>): seq<string> {
    if |s| <= MAX_RETIRED then s else s[|s| - MAX_RETIRED..]
  }

  /** Leave the current session for `next`: the cache starts empty. */
  function SwitchSession(f: Facts, next: string): Facts {
    Facts(map[], next, if f.session == "" then f.retired else LastEight(f.retired + [f.session]))
  }

  function OpenSnapshot(f: Facts, snapshotSession: string): Facts {
    if snapshotSession != "" && snapshotSession != f.session && snapshotSession !in f.retired
    then SwitchSession(f, snapshotSession) else f
  }

  predicate SameIdentity(a: WorkflowRun, b: WorkflowRun) {
    a.identityKey == b.identityKey && a.identityRevision == b.identityRevision
  }

  /** Whether a run replaces what is cached for its task. */
  predicate Supersedes(run: WorkflowRun, previous: Option<WorkflowRun>) {
    previous.Some? ==>
      && SameIdentity(previous.value, run)
      && (previous.value.sessionId == run.sessionId ==> Compare(run, previous.value) > 0)
  }

  function Cached(f: Facts, id: string): Option<WorkflowRun> {
    if id in f.byId then Some(f.byId[id]) else None
  }

  function Store(f: Facts, run: WorkflowRun): Facts {
    if Supersedes(run, Cached(f, run.taskId)) then f.(byId := f.byId[run.taskId := run]) else f
  }

  predicate NamesOtherSession(f: Facts, run: WorkflowRun) {
    run.sessionId != "" && run.sessionId != f.session
  }

  function RecordOne(f: Facts, run: WorkflowRun, snapshot: bool): Facts {
    if !IsComplete(run) then f
    else if NamesOtherSession(f, run) then
      if run.sessionId in f.retired || (f.session != "" && !snapshot) then f
      else Store(SwitchSession(f, run.sessionId), run)
    else Store(f, run)
  }

  function RecordAll(f: Facts, incoming: seq<WorkflowRun>, snapshot: bool): Facts {
    if incoming == [] then f
    else RecordOne(RecordAll(f, incoming[..|incoming| - 1], snapshot), incoming[|incoming| - 1], snapshot)
  }

  function TerminalIds(byId: map<string, WorkflowRun>): set<string> {
    set id | id in byId && IsTerminal(byId[id].status)
  }

  /** The bounded cache: only terminal runs go, the oldest ones, down to 256. */
  ghost predicate Trimmed(before: map<string, WorkflowRun>, after: map<string, WorkflowRun>) {
    if |TerminalIds(before)| <= MAX_TERMINAL then after == before
    else
      && after.Keys <= before.Keys
      && (forall id :: id in after ==> after[id] == before[id])
      && (forall id :: id in before && id !in after ==> IsTerminal(before[id].status))
      && |TerminalIds(after)| == MAX_TERMINAL
      && (forall gone, kept :: gone in before && gone !in after && kept in TerminalIds(after)
            ==> CompareText(before[gone].updatedAt, before[kept].updatedAt) <= 0)
  }

  /** One call of `recordWorkflowFacts`. */
  ghost predicate Recorded(f: Facts, incoming: seq<WorkflowRun>, snapshot: bool, snapshotSession: string, f': Facts) {
    var mid := RecordAll(OpenSnapshot(f, snapshotSession), incoming, snapshot);
    && f'.session == mid.session && f'.retired == mid.retired
    && if mid == f then f' == f else Trimmed(mid.byId, f'.byId)
  }

  // ---- what every call keeps --------------------------------------------------

  ghost predicate SessionsOk(f: Facts) {
    && (forall id :: id in f.byId ==>
          f.byId[id].taskId == id && (f.byId[id].sessionId != "" ==> f.byId[id].sessionId == f.session))
    && f.session !in f.retired
    && "" !in f.retired
    && |f.retired| <= MAX_RETIRED
    && Distinct(f.retired)
  }

  ghost predicate Inv(f: Facts) {
    SessionsOk(f) && |TerminalIds(f.byId)| <= MAX_TERMINAL
  }

  lemma SwitchKeeps(f: Facts, next: string)
    requires SessionsOk(f) && next != "" && next != f.session && next !in f.retired
    ensures SessionsOk(SwitchSession(f, next))
  {
    if f.session != "" {
      AppendDistinct(f.retired, f.session);
    }
  }

  lemma RecordOneKeeps(f: Facts, run: WorkflowRun, snapshot: bool)
    requires SessionsOk(f)
    ensures SessionsOk(RecordOne(f, run, snapshot))
  {
    if IsComplete(run) && NamesOtherSession(f, run) && run.sessionId !in f.retired && (f.session == "" || snapshot) {
      SwitchKeeps(f, run.sessionId);
    }
  }

  lemma {:induction false} RecordAllKeeps(f: Facts, incoming: seq<WorkflowRun>, snapshot: bool)
    requires SessionsOk(f)
    ensures SessionsOk(RecordAll(f, incoming, snapshot))
    decreases |incoming|
  {
    if incoming != [] {
      RecordAllKeeps(f, incoming[..|incoming| - 1], snapshot);
      RecordOneKeeps(RecordAll(f, incoming[..|incoming| - 1], snapshot), incoming[|incoming| - 1], snapshot);
    }
  }

  lemma {:induction false} CallKeepsInv(f: Facts, incoming: seq<WorkflowRun>, snapshot: bool, snapshotSession: string, f': Facts)
    requires Inv(f) && Recorded(f, incoming, snapshot, snapshotSession, f')
    ensures Inv(f')
  {
    var start := OpenSnapshot(f, snapshotSession);
    if start != f {
      SwitchKeeps(f, snapshotSession);
    }
    RecordAllKeeps(start, incoming, snapshot);
  }

  /** One call of a run, with the cache it leaves behind. */
  datatype Call = Call(incoming: seq<WorkflowRun>, snapshot: bool, snapshotSession: string, after: Facts)

  function Before(calls: seq<Call>, i: nat): Facts
    requires i <= |calls|
  {
    if i == 0 then EMPTY_FACTS else calls[i - 1].after
  }

  ghost predicate Makes(f: Facts, call: Call) {
    Recorded(f, call.incoming, call.snapshot, call.snapshotSession, call.after)
  }

  /** The first `n` calls are each made on the cache the one before left. */
  ghost predicate RunsUpTo(calls: seq<Call>, n: nat)
    requires n <= |calls|
  {
    n == 0 || (RunsUpTo(calls, n - 1) && Makes(Before(calls, n - 1), calls[n - 1]))
  }

  ghost predicate IsRun(calls: seq<Call>) { RunsUpTo(calls, |calls|) }

  lemma {:induction false} CallOfRun(calls: seq<Call>, i: nat, n: nat)
    requires i < n <= |calls| && RunsUpTo(calls, n)
    ensures Makes(Before(calls, i), calls[i])
    decreases n
  {
    if i < n - 1 { CallOfRun(calls, i, n - 1); }
  }

  /** In every run: cached facts that name a session name the current one, the
      current session is never a retired one, at most eight distinct sessions are
      retired, and at most 256 terminal runs are cached. */
  lemma {:induction false} RunKeepsInv(calls: seq<Call>, i: nat)
    requires IsRun(calls) && i < |calls|
    ensures Inv(calls[i].after)
    decreases i
  {
    assert TerminalIds(map[]) == {};
    assert Inv(EMPTY_FACTS);
    if i > 0 {
      RunKeepsInv(calls, i - 1);
    }
    CallOfRun(calls, i, |calls|);
    CallKeepsInv(Before(calls, i), calls[i].incoming, calls[i].snapshot, calls[i].snapshotSession, calls[i].after);
  }

  lemma {:induction false} LiveRecordsKeepSession(f: Facts, incoming: seq<WorkflowRun>)
    requires f.session != ""
    ensures RecordAll(f, incoming, false).session == f.session
    ensures RecordAll(f, incoming, false).retired == f.retired
    decreases |incoming|
  {
    if incoming != [] {
      LiveRecordsKeepSession(f, incoming[..|incoming| - 1]);
    }
  }

  /** Live events never move the cache out of an established session. */
  lemma {:induction false} LiveEventsNeverSwitch(f: Facts, incoming: seq<WorkflowRun>, f': Facts)
    requires f.session != "" && Recorded(f, incoming, false, "", f')
    ensures f'.session == f.session && f'.retired == f.retired
  {
    LiveRecordsKeepSession(f, incoming);
  }

  // ---- revisions within a session -------------------------------------------------

  /** The same identity, unchanged or at a strictly newer revision. */
  predicate Advances(before: WorkflowRun, now: WorkflowRun) {
    SameIdentity(before, now) && (now == before || Compare(now, before) > 0)
  }

  lemma AdvancesTransitive(a: WorkflowRun, b: WorkflowRun, c: WorkflowRun)
    requires Advances(a, b) && Advances(b, c)
    ensures Advances(a, c)
  {
    StrictlyNewerIsTransitive(StampOf(c), StampOf(b), StampOf(a));
  }

  /** For numerals that is a strictly larger number. */
  lemma AdvancesIsNumeric(before: WorkflowRun, now: WorkflowRun)
    requires WellFormed(StampOf(before)) && WellFormed(StampOf(now)) && (before.revision.Some? || now.revision.Some?)
    ensures Advances(before, now) <==>
            SameIdentity(before, now) && (now == before || Rank(StampOf(now)) > Rank(StampOf(before)))
  {
    CompareIsNumeric(StampOf(now), StampOf(before));
  }

  /** The run takes the cached fact back: it is not newer, but one of the two names no
      session, so their revisions are not compared. */
  predicate TakesBack(f: Facts, run: WorkflowRun, id: string) {
    && id in f.byId && IsComplete(run) && run.taskId == id && !NamesOtherSession(f, run)
    && SameIdentity(f.byId[id], run) && f.byId[id].sessionId != run.sessionId && Compare(run, f.byId[id]) <= 0
  }

  /** One recorded run that switches no session advances the cached fact if and only
      if it does not take it back. */
  lemma RecordAdvancesIff(f: Facts, run: WorkflowRun, snapshot: bool, id: string)
    requires id in f.byId && RecordOne(f, run, snapshot).session == f.session
    ensures id in RecordOne(f, run, snapshot).byId
    ensures Advances(f.byId[id], RecordOne(f, run, snapshot).byId[id]) <==> !TakesBack(f, run, id)
  {
    StrictlyNewerIsTransitive(StampOf(run), StampOf(run), StampOf(run));
  }

  /** No recorded run of the call switches the session. */
  predicate Stays(f: Facts, incoming: seq<WorkflowRun>, snapshot: bool) {
    incoming == [] ||
    (Stays(f, incoming[..|incoming| - 1], snapshot) && RecordAll(f, incoming, snapshot).session == f.session)
  }

  /** No recorded run of the call takes the fact back. */
  predicate NeverTakesBack(f: Facts, incoming: seq<WorkflowRun>, snapshot: bool, id: string) {
    incoming == [] ||
    var init := incoming[..|incoming| - 1];
    NeverTakesBack(f, init, snapshot, id) && !TakesBack(RecordAll(f, init, snapshot), incoming[|incoming| - 1], id)
  }

  /** Each recorded run of the call advances the fact. */
  predicate AdvancesEachTime(f: Facts, incoming: seq<WorkflowRun>, snapshot: bool, id: string) {
    incoming == [] ||
    var before, after := RecordAll(f, incoming[..|incoming| - 1], snapshot), RecordAll(f, incoming, snapshot);
    && AdvancesEachTime(f, incoming[..|incoming| - 1], snapshot, id)
    && id in before.byId && id in after.byId && Advances(before.byId[id], after.byId[id])
  }

  lemma {:induction false} RecordsAdvanceIff(f: Facts, incoming: seq<WorkflowRun>, snapshot: bool, id: string)
    requires id in f.byId && Stays(f, incoming, snapshot)
    ensures id in RecordAll(f, incoming, snapshot).byId
    ensures AdvancesEachTime(f, incoming, snapshot, id) <==> NeverTakesBack(f, incoming, snapshot, id)
    ensures NeverTakesBack(f, incoming, snapshot, id) ==> Advances(f.byId[id], RecordAll(f, incoming, snapshot).byId[id])
    decreases |incoming|
  {
    if incoming != [] {
      var init, run := incoming[..|incoming| - 1], incoming[|incoming| - 1];
      RecordsAdvanceIff(f, init, snapshot, id);
      var mid := RecordAll(f, init, snapshot);
      assert mid.session == f.session;
      RecordAdvancesIff(mid, run, snapshot, id);
      if NeverTakesBack(f, incoming, snapshot, id) {
        AdvancesTransitive(f.byId[id], mid.byId[id], RecordAll(f, incoming, snapshot).byId[id]);
      }
    }
  }

  /** Live events of an established session switch nothing, whatever session they name. */
  lemma {:induction false} LiveCallsStay(f: Facts, incoming: seq<WorkflowRun>)
    requires f.session != ""
    ensures Stays(f, incoming, false)
    decreases |incoming|
  {
    if incoming != [] {
      LiveCallsStay(f, incoming[..|incoming| - 1]);
      LiveRecordsKeepSession(f, incoming);
    }
  }

  /** The call switches no session, at its opening or by one of its runs. */
  predicate Settled(f: Facts, call: Call) {
    OpenSnapshot(f, call.snapshotSession) == f && Stays(f, call.incoming, call.snapshot)
  }

  /** From the cache after call `i` to that after call `j` no session is switched and
      the task stays cached. */
  predicate Undisturbed(calls: seq<Call>, i: nat, j: nat, id: string)
    requires i <= j < |calls|
    decreases j
  {
    && id in calls[j].after.byId
    && (i < j ==> Undisturbed(calls, i, j - 1, id) && Settled(calls[j - 1].after, calls[j]))
  }

  /** No run of the calls after `i`, up to `j`, takes the fact back. */
  predicate Spared(calls: seq<Call>, i: nat, j: nat, id: string)
    requires i <= j < |calls|
    decreases j
  {
    i == j || (Spared(calls, i, j - 1, id) && NeverTakesBack(calls[j - 1].after, calls[j].incoming, calls[j].snapshot, id))
  }

  /** Each run of those calls leaves the fact or moves it to a newer revision. */
  predicate Moved(calls: seq<Call>, i: nat, j: nat, id: string)
    requires i <= j < |calls|
    decreases j
  {
    i == j || (Moved(calls, i, j - 1, id) && AdvancesEachTime(calls[j - 1].after, calls[j].incoming, calls[j].snapshot, id))
  }

  /** Over every run of calls, as long as no session is switched and the task stays
      cached: every recorded run advances its fact, to a strictly newer revision of the
      same identity, if and only if none takes it back; and then the fact has advanced
      over the whole stretch. */
  lemma {:induction false} RevisionsOnlyIncrease(calls: seq<Call>, i: nat, j: nat, id: string)
    requires IsRun(calls) && i <= j < |calls| && Undisturbed(calls, i, j, id)
    ensures Moved(calls, i, j, id) <==> Spared(calls, i, j, id)
    ensures id in calls[i].after.byId
    ensures Spared(calls, i, j, id) ==> Advances(calls[i].after.byId[id], calls[j].after.byId[id])
  {
    RunIsStretch(calls, i, j);
    StretchAdvances(calls, i, j, id);
  }

  /** Each call after `i`, up to `j`, is made on the cache the one before left. */
  ghost predicate Stretch(calls: seq<Call>, i: nat, j: nat)
    requires i <= j < |calls|
    decreases j
  {
    i == j || (Stretch(calls, i, j - 1) && Makes(calls[j - 1].after, calls[j]))
  }

  lemma {:induction false} RunIsStretch(calls: seq<Call>, i: nat, j: nat)
    requires IsRun(calls) && i <= j < |calls|
    ensures Stretch(calls, i, j)
    decreases j
  {
    if i < j {
      RunIsStretch(calls, i, j - 1);
      CallOfRun(calls, j, |calls|);
    }
  }

  lemma {:induction false} StretchAdvances(calls: seq<Call>, i: nat, j: nat, id: string)
    requires i <= j < |calls| && Stretch(calls, i, j) && Undisturbed(calls, i, j, id)
    ensures Moved(calls, i, j, id) <==> Spared(calls, i, j, id)
    ensures id in calls[i].after.byId
    ensures Spared(calls, i, j, id) ==> Advances(calls[i].after.byId[id], calls[j].after.byId[id])
    decreases j
  {
    if i < j {
      StretchAdvances(calls, i, j - 1, id);
      CallAdvances(calls[j - 1].after, calls[j], id);
      if Spared(calls, i, j, id) {
        AdvancesTransitive(calls[i].after.byId[id], calls[j - 1].after.byId[id], calls[j].after.byId[id]);
      }
    }
  }

  /** In one call: a fact that no run takes back has advanced or has been evicted as
      one of too many terminal ones. */
  lemma {:induction false} CallAdvances(f: Facts, call: Call, id: string)
    requires Makes(f, call) && Settled(f, call) && id in f.byId
    ensures AdvancesEachTime(f, call.incoming, call.snapshot, id) <==> NeverTakesBack(f, call.incoming, call.snapshot, id)
    ensures id in call.after.byId && NeverTakesBack(f, call.incoming, call.snapshot, id)
            ==> Advances(f.byId[id], call.after.byId[id])
    ensures id !in call.after.byId ==>
              var last := RecordAll(f, call.incoming, call.snapshot).byId;
              id in last && IsTerminal(last[id].status) && |TerminalIds(last)| > MAX_TERMINAL
  {
    RecordsAdvanceIff(f, call.incoming, call.snapshot, id);
  }

  /** It happens: a run without a session takes back the fact of one that names it,
      live or in a snapshot. */
  lemma SessionlessRunTakesBack(snapshot: bool) returns (f: Facts, named: WorkflowRun, unnamed: WorkflowRun)
    ensures f == RecordOne(EMPTY_FACTS, named, snapshot) && f.session != "" && f.byId == map["t" := named]
    ensures RecordOne(f, unnamed, snapshot).byId == map["t" := unnamed]
    ensures WellFormed(StampOf(named)) && WellFormed(StampOf(unnamed))
    ensures Rank(StampOf(unnamed)) < Rank(StampOf(named)) && RecordOne(f, unnamed, snapshot).session == f.session
  {
    named := WorkflowRun("t", "p", "k", "i", "S", Some("9"), "", Running, "");
    unnamed := named.(sessionId := "", revision := Some("1"));
    f := RecordOne(EMPTY_FACTS, named, snapshot);
    assert Value("9") == 9 && Value("1") == 1 by { assert "9"[..0] == "" && "1"[..0] == ""; }
    assert f.byId["t" := unnamed] == map["t" := unnamed];
  }

  // ---- what a record does, by its fields --------------------------------------------

  /** The sessions left behind: the last eight of them, the youngest at the end. */
  predicate Leaves(before: seq<string>, session: string, after: seq<string>) {
    if session == "" then after == before
    else && 0 < |after| <= 8 && after[|after| - 1] == session
         && after[..|after| - 1] == if |before| < 8 then before else before[|before| - 7..]
  }

  /** A complete run of a session that is neither current nor retired moves the cache to
      that session, if it comes in a snapshot or no session is established: the old
      session is retired, the cache emptied, and the run stored. */
  lemma NewSessionIsEntered(f: Facts, run: WorkflowRun, snapshot: bool)
    requires run.taskId != "" && run.projectId != "" && run.identityKey != "" && run.identityRevision != ""
    requires run.sessionId != "" && run.sessionId != f.session && run.sessionId !in f.retired
    requires snapshot || f.session == ""
    ensures var f' := RecordOne(f, run, snapshot);
            && f'.session == run.sessionId && f'.byId == map[run.taskId := run] && Leaves(f.retired, f.session, f'.retired)
  {
    SwitchLeaves(f, run.sessionId);
  }

  lemma SwitchLeaves(f: Facts, next: string)
    ensures var f' := SwitchSession(f, next); f'.session == next && f'.byId == map[] && Leaves(f.retired, f.session, f'.retired)
  {
    var all := f.retired + [f.session];
    assert |f.retired| < 8 ==> LastEight(all) == all;
  }

  /** Incomplete runs, runs of a retired session, and live runs of another session than
      the established one change nothing. */
  lemma ForeignRunIsIgnored(f: Facts, run: WorkflowRun, snapshot: bool)
    requires || run.taskId == "" || run.projectId == "" || run.identityKey == "" || run.identityRevision == ""
             || (run.sessionId != "" && run.sessionId != f.session
                 && (run.sessionId in f.retired || (f.session != "" && !snapshot)))
    ensures RecordOne(f, run, snapshot) == f
  {
  }

  /** A complete run that names no other session is stored if and only if its task is not
      cached, or is cached for the same identity and is strictly older or of another
      session field; sessions stay as they are. */
  lemma RecordStoresIff(f: Facts, run: WorkflowRun, snapshot: bool)
    requires run.taskId != "" && run.projectId != "" && run.identityKey != "" && run.identityRevision != ""
    requires run.sessionId == "" || run.sessionId == f.session
    ensures var f' := RecordOne(f, run, snapshot);
            var stored := run.taskId in f.byId ==>
                            var cached := f.byId[run.taskId];
                            && cached.identityKey == run.identityKey && cached.identityRevision == run.identityRevision
                            && (cached.sessionId != run.sessionId
                                || CompareWorkflowRevision(Stamp(run.revision, run.updatedAt), Stamp(cached.revision, cached.updatedAt)) > 0);
            && f'.session == f.session && f'.retired == f.retired
            && f'.byId == if stored then f.byId[run.taskId := run] else f.byId
  {
  }

  // The facts recorded after the cache was emptied.
  lemma {:induction false} RecordedAreIncoming(f: Facts, incoming: seq<WorkflowRun>, snapshot: bool)
    requires f.session != "" && f.byId == map[]
    requires snapshot ==> forall run :: run in incoming ==> run.sessionId == "" || run.sessionId == f.session
    ensures var f' := RecordAll(f, incoming, snapshot);
            && f'.session == f.session && f'.retired == f.retired
            && forall id :: id in f'.byId ==> f'.byId[id] in incoming
    decreases |incoming|
  {
    if incoming != [] {
      RecordedAreIncoming(f, incoming[..|incoming| - 1], snapshot);
    }
  }

  /** A call opened with a session that is neither current nor retired moves the cache to
      it: the old session is retired, and whatever is cached afterwards came with the call. */
  lemma {:induction false} SnapshotSessionIsEntered(f: Facts, incoming: seq<WorkflowRun>, snapshot: bool, snapshotSession: string, f': Facts)
    requires Recorded(f, incoming, snapshot, snapshotSession, f')
    requires snapshotSession != "" && snapshotSession != f.session && snapshotSession !in f.retired
    requires snapshot ==> forall run :: run in incoming ==> run.sessionId == "" || run.sessionId == snapshotSession
    ensures f'.session == snapshotSession && Leaves(f.retired, f.session, f'.retired)
    ensures forall id :: id in f'.byId ==> f'.byId[id] in incoming
  {
    SwitchLeaves(f, snapshotSession);
    RecordedAreIncoming(SwitchSession(f, snapshotSession), incoming, snapshot);
  }

  /** One complete run that comes with its new session is cached. */
  lemma {:induction false} SnapshotRunIsCached(f: Facts, run: WorkflowRun, snapshotSession: string, f': Facts)
    requires Recorded(f, [run], true, snapshotSession, f')
    requires run.taskId != "" && run.projectId != "" && run.identityKey != "" && run.identityRevision != ""
    requires run.sessionId != "" && run.sessionId != f.session && run.sessionId !in f.retired
    requires snapshotSession == "" || snapshotSession == run.sessionId
    ensures f'.session == run.sessionId && f'.byId == map[run.taskId := run] && Leaves(f.retired, f.session, f'.retired)
  {
    SwitchLeaves(f, run.sessionId);
    var start := OpenSnapshot(f, snapshotSession);
    assert [run][..0] == [];
    assert RecordAll(start, [run], true) == RecordOne(start, run, true);
    var mid := RecordOne(start, run, true);
    assert mid.byId == map[run.taskId := run];
    assert TerminalIds(mid.byId) <= {run.taskId};
    SubsetSize(TerminalIds(mid.byId), {run.taskId});
  }

  /** A call opened with a retired session, or with the current one, is a call opened
      with none. */
  lemma RetiredSessionIsIgnored(f: Facts, incoming: seq<WorkflowRun>, snapshot: bool, snapshotSession: string, f': Facts)
    requires snapshotSession in f.retired || snapshotSession == f.session
    ensures Recorded(f, incoming, snapshot, snapshotSession, f') <==> Recorded(f, incoming, snapshot, "", f')
  {
  }

  /** After every call of a run, at most 256 completed, cancelled, failed and interrupted
      runs are cached, and at most eight retired sessions are remembered. */
  lemma {:induction false} CacheIsBounded(calls: seq<Call>, i: nat)
    requires IsRun(calls) && i < |calls|
    ensures var byId := calls[i].after.byId;
            |set id | id in byId && byId[id].status in {Completed, Cancelled, Failed, Interrupted}| <= 256
    ensures |calls[i].after.retired| <= 8
  {
    RunKeepsInv(calls, i);
    var byId := calls[i].after.byId;
    assert TerminalIds(byId) == set id | id in byId && byId[id].status in {Completed, Cancelled, Failed, Interrupted};
  }

  /** Running, queued and waiting runs are never evicted, and nothing is as long as there
      are no more than 256 others. */
  lemma ActiveRunsStay(f: Facts, incoming: seq<WorkflowRun>, snapshot: bool, snapshotSession: string, f': Facts, id: string)
    requires Recorded(f, incoming, snapshot, snapshotSession, f')
    requires id in RecordAll(OpenSnapshot(f, snapshotSession), incoming, snapshot).byId
    ensures var last := RecordAll(OpenSnapshot(f, snapshotSession), incoming, snapshot).byId;
            && (last[id].status in {Running, Queued, WaitingForConfirmation} ==> id in f'.byId)
            && (id in f'.byId ==> f'.byId[id] == last[id])
            && (|last| <= 256 ==> f'.byId == last)
  {
    var last := RecordAll(OpenSnapshot(f, snapshotSession), incoming, snapshot).byId;
    assert |last.Keys| == |last|;
    SubsetSize(TerminalIds(last), last.Keys);
  }

  /** Of more than 256 finished runs exactly 256 stay, and none that goes was updated later
      than one that stays. */
  lemma EvictedAreOldest(f: Facts, incoming: seq<WorkflowRun>, snapshot: bool, snapshotSession: string, f': Facts, gone: string, kept: string)
    requires Recorded(f, incoming, snapshot, snapshotSession, f')
    requires var last := RecordAll(OpenSnapshot(f, snapshotSession), incoming, snapshot).byId;
             && gone in last && gone !in f'.byId && kept in f'.byId
             && f'.byId[kept].status in {Completed, Cancelled, Failed, Interrupted}
    ensures var last := RecordAll(OpenSnapshot(f, snapshotSession), incoming, snapshot).byId;
            && CompareText(last[gone].updatedAt, f'.byId[kept].updatedAt) <= 0
            && |set id | id in f'.byId && f'.byId[id].status in {Completed, Cancelled, Failed, Interrupted}| == 256
  {
    assert TerminalIds(f'.byId) == set id | id in f'.byId && f'.byId[id].status in {Completed, Cancelled, Failed, Interrupted};
    assert kept in TerminalIds(f'.byId);
  }

  // ---- the store object -------------------------------------------------------

  predicate IsOldest(byId: map<string, WorkflowRun>, ids: set<string>, oldest: string)
    requires ids <= byId.Keys
  {
    && oldest in ids
    && forall x :: x in ids ==> CompareText(byId[oldest].updatedAt, byId[x].updatedAt) <= 0
  }

  /** Part of the way to the bounded cache. */
  ghost predicate Trimming(before: map<string, WorkflowRun>, now: map<string, WorkflowRun>) {
    && now.Keys <= before.Keys
    && (forall id :: id in now ==> now[id] == before[id])
    && (forall id :: id in before && id !in now ==> IsTerminal(before[id].status))
    && (now != before ==> |TerminalIds(now)| >= MAX_TERMINAL && |TerminalIds(before)| > MAX_TERMINAL)
    && (forall gone, kept :: gone in before && gone !in now && kept in TerminalIds(now)
          ==> CompareText(before[gone].updatedAt, before[kept].updatedAt) <= 0)
  }

  lemma DropOldest(before: map<string, WorkflowRun>, now: map<string, WorkflowRun>, oldest: string)
    requires Trimming(before, now) && |TerminalIds(now)| > MAX_TERMINAL && IsOldest(now, TerminalIds(now), oldest)
    ensures Trimming(before, now - {oldest}) && TerminalIds(now - {oldest}) == TerminalIds(now) - {oldest}
  {
    var next := now - {oldest};
    assert TerminalIds(next) == TerminalIds(now) - {oldest};
    if now == before { assert |TerminalIds(before)| > MAX_TERMINAL; }
  }

  lemma {:induction false} OldestExists(byId: map<string, WorkflowRun>, ids: set<string>) returns (oldest: string)
    requires ids <= byId.Keys && ids != {}
    ensures IsOldest(byId, ids, oldest)
    decreases ids
  {
    var x :| x in ids;
    CompareTextOrder(byId[x].updatedAt, byId[x].updatedAt, "");
    if ids == {x} {
      oldest := x;
    } else {
      var rest := ids - {x};
      assert rest != {};
      var o := OldestExists(byId, rest);
      CompareTextOrder(byId[x].updatedAt, byId[o].updatedAt, "");
      oldest := if CompareText(byId[x].updatedAt, byId[o].updatedAt) <= 0 then x else o;
      forall y | y in ids
        ensures CompareText(byId[oldest].updatedAt, byId[y].updatedAt) <= 0
      {
        if y != x {
          CompareTextOrder(byId[oldest].updatedAt, byId[o].updatedAt, byId[y].updatedAt);
          CompareTextOrder(byId[o].updatedAt, byId[o].updatedAt, "");
        }
      }
    }
  }

  class WorkflowCache {
    var workflowById: map<string, WorkflowRun>
    var workflowSessionId: string
    var retiredWorkflowSessions: seq<string>

    ghost function Model(): Facts
      reads this
    {
      Facts(workflowById, workflowSessionId, retiredWorkflowSessions)
    }

    constructor ()
      ensures Model() == EMPTY_FACTS && Inv(Model())
    {
      workflowById, workflowSessionId, retiredWorkflowSessions := map[], "", [];
      new;
      assert TerminalIds(map[]) == {};
    }

    method RecordWorkflowFacts(incoming: seq<WorkflowRun>, snapshot: bool, snapshotSession: string)
      requires Inv(Model())
      modifies this
      ensures Recorded(old(Model()), incoming, snapshot, snapshotSession, Model())
      ensures Inv(Model())
    {
      ghost var before := Model();
      if snapshotSession != "" && snapshotSession != workflowSessionId && snapshotSession !in retiredWorkflowSessions {
        Switch(snapshotSession);
      }
      ghost var start := OpenSnapshot(before, snapshotSession);
      var i := 0;
      while i < |incoming|
        invariant 0 <= i <= |incoming|
        invariant Model() == RecordAll(start, incoming[..i], snapshot)
      {
        assert incoming[..i + 1][..|incoming[..i + 1]| - 1] == incoming[..i];
        var run := incoming[i];
        i := i + 1;
        if !IsComplete(run) { continue; }
        if run.sessionId != "" && run.sessionId != workflowSessionId {
          if run.sessionId in retiredWorkflowSessions || (workflowSessionId != "" && !snapshot) { continue; }
          Switch(run.sessionId);
        }
        if run.taskId in workflowById {
          var previous := workflowById[run.taskId];
          if !SameIdentity(previous, run) { continue; }
          if previous.sessionId == run.sessionId && Compare(run, previous) <= 0 { continue; }
        }
        workflowById := workflowById[run.taskId := run];
      }
      assert incoming[..|incoming|] == incoming;
      ghost var mid := Model();
      Trim();
      if mid == before {
        assert Trimmed(mid.byId, workflowById);
      }
      CallKeepsInv(before, incoming, snapshot, snapshotSession, Model());
    }

    method Switch(next: string)
      modifies this
      ensures Model() == SwitchSession(old(Model()), next)
    {
      if workflowSessionId != "" {
        retiredWorkflowSessions := LastEight(retiredWorkflowSessions + [workflowSessionId]);
      }
      workflowSessionId := next;
      workflowById := map[];
    }

    /** Keep active work and the most recent terminal runs. */
    method Trim()
      modifies `workflowById
      ensures Trimmed(old(workflowById), workflowById)
    {
      ghost var before := workflowById;
      var terminal := TerminalIds(workflowById);
      while |terminal| > MAX_TERMINAL
        invariant terminal == TerminalIds(workflowById) && Trimming(before, workflowById)
        decreases terminal
      {
        ghost var some := OldestExists(workflowById, terminal);
        var oldest :| oldest in terminal
                      && forall x :: x in terminal ==> CompareText(workflowById[oldest].updatedAt, workflowById[x].updatedAt) <= 0;
        DropOldest(before, workflowById, oldest);
        workflowById := workflowById - {oldest};
        terminal := terminal - {oldest};
      }
    }
  }
}
