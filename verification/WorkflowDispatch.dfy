/** Coalescing of running workflow events (`src/services/taskEventDispatcher.ts`).

    A running run is held back for at most 100 ms and replaced by newer ones; any
    other run goes out at once. The module proves that the workflow cache ends up
    exactly as if every event had been handed over directly. */
module WorkflowDispatch {
  import opened Common
  import opened WorkflowRevision
  import opened WorkflowFacts

  datatype Event = Event(taskId: string, projectId: Option<string>, run: WorkflowRun)

  datatype Key = Key(
    taskId: string, projectId: Option<string>, runProjectId: string, sessionId: string,
    identityKey: string, identityRevision: string)

  function KeyOf(e: Event): Key {
    Key(e.taskId, e.projectId, e.run.projectId, e.run.sessionId, e.run.identityKey, e.run.identityRevision)
  }

  /** `workflowPending`, a map that remembers insertion order. */
  datatype Dispatcher = Dispatcher(pending: map<Key, Event>, order: seq<Key>, timer: bool)

  const IDLE := Dispatcher(map[], [], false)

  ghost predicate Valid(d: Dispatcher) {
    && Distinct(d.order)
    && Elements(d.order) == d.pending.Keys
    && (forall k :: k in d.pending ==> KeyOf(d.pending[k]) == k)
    && (d.pending != map[] ==> d.timer)
  }

  datatype Dispatched = Dispatched(dispatcher: Dispatcher, emitted: seq<Event>)

  function Dispatch(d: Dispatcher, e: Event): Dispatched {
    // An event without a task id is not a workflow fact and is passed on.
    if e.taskId == "" then Dispatched(d, [e])
    else
      var k := KeyOf(e);
      if k in d.pending && Compare(e.run, d.pending[k].run) < 0 then Dispatched(d, [])
      else if e.run.status.Running? then
        Dispatched(Dispatcher(d.pending[k := e], if k in d.pending then d.order else d.order + [k], true), [])
      else
        Dispatched(Dispatcher(d.pending - {k}, Without(d.order, k), d.timer), [e])
  }

  /** The held-back events in the order of their keys. */
  function InOrder(pending: map<Key, Event>, order: seq<Key>): seq<Event> {
    if order == [] then []
    else
      var k := order[|order| - 1];
      InOrder(pending, order[..|order| - 1]) + if k in pending then [pending[k]] else []
  }

  function FlushWorkflows(d: Dispatcher): Dispatched {
    Dispatched(IDLE, InOrder(d.pending, d.order))
  }

  datatype Step = Deliver(event: Event) | Timer

  function Next(d: Dispatcher, s: Step): Dispatched {
    match s
    case Deliver(e) => Dispatch(d, e)
    case Timer => FlushWorkflows(d)
  }

  /** Dispatcher state and everything emitted so far. */
  function Run(steps: seq<Step>): Dispatched {
    if steps == [] then Dispatched(IDLE, [])
    else
      var r := Run(steps[..|steps| - 1]);
      var n := Next(r.dispatcher, steps[|steps| - 1]);
      Dispatched(n.dispatcher, r.emitted + n.emitted)
  }

  function Offered(steps: seq<Step>): seq<Event> {
    if steps == [] then []
    else
      var s := steps[|steps| - 1];
      Offered(steps[..|steps| - 1]) + if s.Deliver? then [s.event] else []
  }

  /** Handing events to the cache one at a time, as live events. */
  function Deliveries(f: Facts, events: seq<Event>): Facts {
    if events == [] then f
    else RecordOne(Deliveries(f, events[..|events| - 1]), events[|events| - 1].run, false)
  }

  /** The key of two events is the same exactly if they agree in task, project, session
      and identity. */
  lemma KeyMeans(a: Event, b: Event)
    ensures KeyOf(a) == KeyOf(b) <==>
            && a.taskId == b.taskId && a.projectId == b.projectId && a.run.projectId == b.run.projectId
            && a.run.sessionId == b.run.sessionId
            && a.run.identityKey == b.run.identityKey && a.run.identityRevision == b.run.identityRevision
  {
  }

  /** An event without a task goes through. One that is older than the held-back event of
      its key is dropped. A running one is held back in its place, nothing is emitted, and
      the timer runs; any other one is emitted at once, and nothing of its key is held
      back any more. Other keys are not touched. */
  lemma DispatchMeans(d: Dispatcher, e: Event, other: Key)
    requires Valid(d) && other != KeyOf(e)
    ensures var n, k := Dispatch(d, e), KeyOf(e);
            var older := k in d.pending && CompareWorkflowRevision(Stamp(e.run.revision, e.run.updatedAt),
                           Stamp(d.pending[k].run.revision, d.pending[k].run.updatedAt)) < 0;
            && (e.taskId == "" ==> n.emitted == [e] && n.dispatcher == d)
            && (e.taskId != "" && older ==> n.emitted == [] && n.dispatcher == d)
            && (e.taskId != "" && !older && e.run.status == WorkflowFacts.Running ==>
                  && n.emitted == [] && n.dispatcher.timer && k in n.dispatcher.pending && n.dispatcher.pending[k] == e
                  && n.dispatcher.order == if k in d.order then d.order else d.order + [k])
            && (e.taskId != "" && !older && e.run.status != WorkflowFacts.Running ==>
                  n.emitted == [e] && k !in n.dispatcher.pending && n.dispatcher.order == Without(d.order, k))
            && (other in n.dispatcher.pending <==> other in d.pending)
            && (other in d.pending ==> n.dispatcher.pending[other] == d.pending[other])
  {
    assert KeyOf(e) in d.order <==> KeyOf(e) in Elements(d.order);
  }

  /** The timer emits every held-back event once, in the order in which their keys came,
      and holds nothing back. */
  lemma {:induction false} FlushMeans(d: Dispatcher, i: nat)
    requires Valid(d) && i < |d.order|
    ensures var n := FlushWorkflows(d);
            && n.dispatcher.pending == map[] && n.dispatcher.order == [] && !n.dispatcher.timer
            && |n.emitted| == |d.order| && d.order[i] in d.pending && n.emitted[i] == d.pending[d.order[i]]
  {
    assert forall k :: k in d.order ==> k in Elements(d.order);
    InOrderAt(d.pending, d.order, i);
  }

  lemma {:induction false} InOrderAt(pending: map<Key, Event>, order: seq<Key>, i: nat)
    requires i < |order| && forall k :: k in order ==> k in pending
    ensures |InOrder(pending, order)| == |order| && InOrder(pending, order)[i] == pending[order[i]]
    decreases |order|
  {
    var n := |order| - 1;
    if n > 0 { InOrderAt(pending, order[..n], if i < n then i else 0); }
  }

  // ---- the setting: one session, one identity per task ---------------------------

  predicate InSession(e: Event, session: string) {
    && e.taskId == e.run.taskId
    && e.run.sessionId == session
    && e.run.revision.Some? && WellFormed(StampOf(e.run))
  }

  /** Same key for one task; one summary for one revision of it. */
  predicate Consistent(a: Event, b: Event)
    requires a.run.revision.Some? && WellFormed(StampOf(a.run))
    requires b.run.revision.Some? && WellFormed(StampOf(b.run))
  {
    a.taskId == b.taskId ==>
      KeyOf(a) == KeyOf(b) && (Rank(StampOf(a.run)) == Rank(StampOf(b.run)) ==> a == b)
  }

  ghost predicate Coherent(events: seq<Event>, session: string) {
    && (forall e :: e in events ==> InSession(e, session))
    && (forall a, b :: a in events && b in events ==> Consistent(a, b))
  }

  /** Cached facts of the session are comparable with its events. */
  ghost predicate Comparable(f: Facts, session: string) {
    && f.session == session
    && forall id :: id in f.byId && f.byId[id].sessionId == session
         ==> f.byId[id].revision.Some? && WellFormed(StampOf(f.byId[id]))
  }

  /** What a run does to the cached fact of its task. */
  function Join(previous: Option<WorkflowRun>, run: WorkflowRun): Option<WorkflowRun> {
    if IsComplete(run) && Supersedes(run, previous) then Some(run) else previous
  }

  /** The key under which the events of each task are held back. */
  type KeyTable = map<string, Key>

  ghost predicate Tabulates(keys: KeyTable, events: seq<Event>) {
    && (forall id :: id in keys ==> keys[id].taskId == id)
    && (forall e :: e in events ==> e.taskId in keys && keys[e.taskId] == KeyOf(e))
  }

  /** The cached fact of a task once its held-back run has been delivered. */
  function Caught(f: Facts, pending: map<Key, Event>, keys: KeyTable, id: string): Option<WorkflowRun> {
    if id in keys && keys[id] in pending then Join(Cached(f, id), pending[keys[id]].run) else Cached(f, id)
  }

  lemma RecordIsJoin(f: Facts, e: Event, id: string)
    requires InSession(e, f.session)
    ensures var g := RecordOne(f, e.run, false);
            && g.session == f.session && g.retired == f.retired
            && Cached(g, id) == if id == e.taskId then Join(Cached(f, id), e.run) else Cached(f, id)
  {
  }

  lemma RecordStaysComparable(f: Facts, e: Event)
    requires Comparable(f, f.session) && InSession(e, f.session)
    ensures Comparable(RecordOne(f, e.run, false), f.session)
  {
  }

  predicate ComparableCell(cell: Option<WorkflowRun>, session: string) {
    cell.Some? && cell.value.sessionId == session ==>
      cell.value.revision.Some? && WellFormed(StampOf(cell.value))
  }

  // The three ways in which a later event meets a held-back one.
  lemma JoinOlderIsLost(c: Option<WorkflowRun>, p: Event, e: Event, session: string)
    requires ComparableCell(c, session) && InSession(p, session) && InSession(e, session)
    requires p.taskId == e.taskId && Consistent(p, e) && Compare(e.run, p.run) < 0
    ensures Join(Join(c, p.run), e.run) == Join(c, p.run)
  {
    CompareIsNumeric(StampOf(e.run), StampOf(p.run));
    if c.Some? && c.value.sessionId == session {
      CompareIsNumeric(StampOf(e.run), StampOf(c.value));
      CompareIsNumeric(StampOf(p.run), StampOf(c.value));
    }
  }

  lemma JoinNewerReplaces(c: Option<WorkflowRun>, p: Event, e: Event, session: string)
    requires ComparableCell(c, session) && InSession(p, session) && InSession(e, session)
    requires p.taskId == e.taskId && Consistent(p, e) && Compare(e.run, p.run) >= 0
    ensures Join(Join(c, p.run), e.run) == Join(c, e.run)
  {
    CompareIsNumeric(StampOf(e.run), StampOf(p.run));
    CompareIsNumeric(StampOf(e.run), StampOf(e.run));
    if c.Some? && c.value.sessionId == session {
      CompareIsNumeric(StampOf(e.run), StampOf(c.value));
      CompareIsNumeric(StampOf(p.run), StampOf(c.value));
    }
  }

  // ---- coalescing is invisible ---------------------------------------------------

  lemma DispatchStaysValid(d: Dispatcher, e: Event)
    requires Valid(d)
    ensures Valid(Dispatch(d, e).dispatcher)
  {
    WithoutDistinct(d.order, KeyOf(e));
    if KeyOf(e) !in d.order {
      AppendDistinct(d.order, KeyOf(e));
    }
  }

  lemma {:induction false} RunStaysValid(steps: seq<Step>)
    ensures Valid(Run(steps).dispatcher)
    ensures forall k :: k in Run(steps).dispatcher.pending ==> Run(steps).dispatcher.pending[k] in Offered(steps)
    decreases |steps|
  {
    if steps != [] {
      var init := steps[..|steps| - 1];
      RunStaysValid(init);
      var s := steps[|steps| - 1];
      if s.Deliver? {
        DispatchStaysValid(Run(init).dispatcher, s.event);
      }
    }
  }

  lemma {:induction false} DeliveriesAppend(f: Facts, a: seq<Event>, b: seq<Event>)
    ensures Deliveries(f, a + b) == Deliveries(Deliveries(f, a), b)
    decreases |b|
  {
    if b == [] {
      assert a + b == a;
    } else {
      assert (a + b)[..|a + b| - 1] == a + b[..|b| - 1];
      DeliveriesAppend(f, a, b[..|b| - 1]);
    }
  }

  lemma {:induction false} DeliveriesKeepSetting(f: Facts, events: seq<Event>)
    requires Comparable(f, f.session)
    requires forall e :: e in events ==> InSession(e, f.session)
    ensures var g := Deliveries(f, events);
            g.session == f.session && g.retired == f.retired && Comparable(g, f.session)
    decreases |events|
  {
    if events != [] {
      var init := events[..|events| - 1];
      DeliveriesKeepSetting(f, init);
      assert events[|events| - 1] in events;
      RecordStaysComparable(Deliveries(f, init), events[|events| - 1]);
      RecordIsJoin(Deliveries(f, init), events[|events| - 1], "");
    }
  }

  // Delivering the held-back events one after the other joins each into its task.
  lemma {:induction false} FlushJoins(f: Facts, pending: map<Key, Event>, order: seq<Key>, keys: KeyTable, id: string)
    requires Comparable(f, f.session) && Distinct(order) && (forall k :: k in order ==> k in pending)
    requires forall t :: t in keys ==> keys[t].taskId == t
    requires forall k :: k in order ==>
               && KeyOf(pending[k]) == k && InSession(pending[k], f.session)
               && k.taskId in keys && keys[k.taskId] == k
    ensures Cached(Deliveries(f, InOrder(pending, order)), id)
            == if id in keys && keys[id] in order then Join(Cached(f, id), pending[keys[id]].run) else Cached(f, id)
    ensures forall e :: e in InOrder(pending, order) ==> InSession(e, f.session)
    decreases |order|
  {
    if order != [] {
      var init, k := order[..|order| - 1], order[|order| - 1];
      FlushJoins(f, pending, init, keys, id);
      var before := InOrder(pending, init);
      DeliveriesKeepSetting(f, before);
      assert InOrder(pending, order) == before + [pending[k]];
      assert (before + [pending[k]])[..|before|] == before;
      RecordIsJoin(Deliveries(f, before), pending[k], id);
      assert k !in init;
      assert forall q :: q in order <==> q in init || q == k;
    }
  }

  /** The cache under direct delivery is the one under coalesced delivery, caught
      up with what is held back. */
  ghost predicate Matches(f: Facts, direct: Facts, coalesced: Facts, pending: map<Key, Event>, keys: KeyTable) {
    && direct.session == coalesced.session == f.session
    && direct.retired == coalesced.retired == f.retired
    && Comparable(coalesced, f.session)
    && (forall id :: Cached(direct, id) == Caught(coalesced, pending, keys, id))
  }

  ghost predicate Held(d: Dispatcher, session: string, keys: KeyTable) {
    && Valid(d)
    && (forall id :: id in keys ==> keys[id].taskId == id)
    && (forall k :: k in d.pending ==> InSession(d.pending[k], session) && k.taskId in keys && keys[k.taskId] == k)
  }

  lemma DispatchCell(direct: Facts, coalesced: Facts, d: Dispatcher, e: Event, keys: KeyTable, id: string)
    requires Held(d, coalesced.session, keys) && Comparable(coalesced, coalesced.session)
    requires InSession(e, coalesced.session) && direct.session == coalesced.session
    requires e.taskId in keys && keys[e.taskId] == KeyOf(e)
    requires KeyOf(e) in d.pending ==> Consistent(d.pending[KeyOf(e)], e)
    requires Cached(direct, id) == Caught(coalesced, d.pending, keys, id)
    ensures Cached(RecordOne(direct, e.run, false), id)
            == Caught(Deliveries(coalesced, Dispatch(d, e).emitted), Dispatch(d, e).dispatcher.pending, keys, id)
  {
    RecordIsJoin(direct, e, id);
    RecordIsJoin(coalesced, e, id);
    assert [e][..0] == [];
    assert Deliveries(coalesced, []) == coalesced;
    assert Deliveries(coalesced, [e]) == RecordOne(coalesced, e.run, false);
    if id == e.taskId && KeyOf(e) in d.pending && e.taskId != "" {
      var p, c := d.pending[KeyOf(e)], Cached(coalesced, id);
      if Compare(e.run, p.run) < 0 {
        JoinOlderIsLost(c, p, e, coalesced.session);
      } else {
        JoinNewerReplaces(c, p, e, coalesced.session);
      }
    }
  }

  lemma DispatchHeld(d: Dispatcher, e: Event, session: string, keys: KeyTable)
    requires Held(d, session, keys) && InSession(e, session) && e.taskId in keys && keys[e.taskId] == KeyOf(e)
    ensures Held(Dispatch(d, e).dispatcher, session, keys)
    ensures forall x :: x in Dispatch(d, e).emitted ==> x == e
  {
    DispatchStaysValid(d, e);
  }

  lemma DispatchMatches(f: Facts, direct: Facts, coalesced: Facts, d: Dispatcher, e: Event, keys: KeyTable)
    requires Matches(f, direct, coalesced, d.pending, keys) && Held(d, f.session, keys)
    requires InSession(e, f.session) && e.taskId in keys && keys[e.taskId] == KeyOf(e)
    requires KeyOf(e) in d.pending ==> Consistent(d.pending[KeyOf(e)], e)
    ensures var n := Dispatch(d, e);
            Matches(f, RecordOne(direct, e.run, false), Deliveries(coalesced, n.emitted), n.dispatcher.pending, keys)
  {
    var n := Dispatch(d, e);
    forall id
      ensures Cached(RecordOne(direct, e.run, false), id)
              == Caught(Deliveries(coalesced, n.emitted), n.dispatcher.pending, keys, id)
    {
      DispatchCell(direct, coalesced, d, e, keys, id);
    }
    RecordIsJoin(direct, e, "");
    DispatchHeld(d, e, f.session, keys);
    DeliveriesKeepSetting(coalesced, n.emitted);
  }

  // A flush leaves nothing to catch up with.
  lemma FlushMatches(f: Facts, direct: Facts, coalesced: Facts, d: Dispatcher, keys: KeyTable)
    requires Matches(f, direct, coalesced, d.pending, keys) && Held(d, f.session, keys)
    ensures Matches(f, direct, Deliveries(coalesced, InOrder(d.pending, d.order)), map[], keys)
  {
    forall id
      ensures Cached(direct, id) == Cached(Deliveries(coalesced, InOrder(d.pending, d.order)), id)
    {
      FlushJoins(coalesced, d.pending, d.order, keys, id);
    }
    FlushJoins(coalesced, d.pending, d.order, keys, "");
    DeliveriesKeepSetting(coalesced, InOrder(d.pending, d.order));
  }

  lemma {:induction false} RunHeld(session: string, steps: seq<Step>, keys: KeyTable)
    requires Coherent(Offered(steps), session) && Tabulates(keys, Offered(steps))
    ensures Held(Run(steps).dispatcher, session, keys)
    decreases |steps|
  {
    if steps != [] {
      var init, s := steps[..|steps| - 1], steps[|steps| - 1];
      assert forall e :: e in Offered(init) ==> e in Offered(steps);
      RunHeld(session, init, keys);
      match s
      case Timer =>
      case Deliver(e) =>
        assert e in Offered(steps);
        DispatchHeld(Run(init).dispatcher, e, session, keys);
    }
  }

  // An event meets only consistent ones.
  lemma {:induction false} OfferedMeets(steps: seq<Step>, e: Event, session: string, keys: KeyTable)
    requires Coherent(Offered(steps) + [e], session) && Tabulates(keys, Offered(steps) + [e])
    ensures InSession(e, session) && e.taskId in keys && keys[e.taskId] == KeyOf(e)
    ensures Coherent(Offered(steps), session) && Tabulates(keys, Offered(steps))
    ensures KeyOf(e) in Run(steps).dispatcher.pending ==>
              InSession(Run(steps).dispatcher.pending[KeyOf(e)], session) && Consistent(Run(steps).dispatcher.pending[KeyOf(e)], e)
  {
    var all := Offered(steps) + [e];
    assert all[|all| - 1] == e && e in all;
    assert forall x :: x in Offered(steps) ==> x in all;
    RunStaysValid(steps);
  }

  lemma {:induction false} RunMatches(f: Facts, steps: seq<Step>, keys: KeyTable)
    requires Comparable(f, f.session) && Coherent(Offered(steps), f.session) && Tabulates(keys, Offered(steps))
    ensures Matches(f, Deliveries(f, Offered(steps)), Deliveries(f, Run(steps).emitted), Run(steps).dispatcher.pending, keys)
    decreases |steps|
  {
    if steps != [] {
      var init, s := steps[..|steps| - 1], steps[|steps| - 1];
      var r := Run(init);
      DeliveriesAppend(f, r.emitted, Next(r.dispatcher, s).emitted);
      match s
      case Timer =>
        assert Offered(steps) == Offered(init);
        RunMatches(f, init, keys);
        RunHeld(f.session, init, keys);
        FlushMatches(f, Deliveries(f, Offered(init)), Deliveries(f, r.emitted), r.dispatcher, keys);
      case Deliver(e) =>
        OfferedMeets(init, e, f.session, keys);
        RunMatches(f, init, keys);
        RunHeld(f.session, init, keys);
        assert (Offered(init) + [e])[..|Offered(init)|] == Offered(init);
        DispatchMatches(f, Deliveries(f, Offered(init)), Deliveries(f, r.emitted), r.dispatcher, e, keys);
    }
  }

  lemma {:induction false} TableExists(events: seq<Event>, session: string) returns (keys: KeyTable)
    requires Coherent(events, session)
    ensures Tabulates(keys, events)
    decreases |events|
  {
    if events == [] {
      keys := map[];
    } else {
      var init, e := events[..|events| - 1], events[|events| - 1];
      keys := TableExists(init, session);
      keys := keys[e.taskId := KeyOf(e)];
      assert e in events;
      forall x | x in events ensures x.taskId in keys && keys[x.taskId] == KeyOf(x) {
        assert Consistent(x, e);
        if x != e { assert x in init; }
      }
    }
  }

  lemma SameCells(f: Facts, g: Facts)
    requires f.session == g.session && f.retired == g.retired
    requires forall id :: Cached(f, id) == Cached(g, id)
    ensures f == g
  {
    assert forall id :: id in f.byId <==> Cached(f, id).Some?;
    assert forall id :: id in g.byId <==> Cached(g, id).Some?;
    forall id | id in f.byId ensures id in g.byId && f.byId[id] == g.byId[id] {
      assert Cached(f, id) == Cached(g, id);
    }
    assert f.byId == g.byId;
  }

  lemma {:induction false} EstablishedIsInvisible(f: Facts, steps: seq<Step>)
    requires Comparable(f, f.session) && Coherent(Offered(steps), f.session)
    ensures Deliveries(f, Run(steps + [Timer]).emitted) == Deliveries(f, Offered(steps))
  {
    var keys := TableExists(Offered(steps), f.session);
    RunMatches(f, steps, keys);
    RunHeld(f.session, steps, keys);
    var r := Run(steps);
    FlushMatches(f, Deliveries(f, Offered(steps)), Deliveries(f, r.emitted), r.dispatcher, keys);
    var all := steps + [Timer];
    assert all[..|all| - 1] == steps;
    DeliveriesAppend(f, r.emitted, InOrder(r.dispatcher.pending, r.dispatcher.order));
    SameCells(Deliveries(f, Offered(steps)), Deliveries(f, Run(all).emitted));
  }

  lemma {:induction false} InOrderIsPending(pending: map<Key, Event>, order: seq<Key>, e: Event)
    requires e in InOrder(pending, order)
    ensures exists k :: k in pending && pending[k] == e
    decreases |order|
  {
    var init := InOrder(pending, order[..|order| - 1]);
    if e in init {
      InOrderIsPending(pending, order[..|order| - 1], e);
    }
  }

  lemma {:induction false} EmittedWereOffered(steps: seq<Step>)
    ensures forall e :: e in Run(steps).emitted ==> e in Offered(steps)
    decreases |steps|
  {
    if steps != [] {
      var init, s := steps[..|steps| - 1], steps[|steps| - 1];
      EmittedWereOffered(init);
      RunStaysValid(init);
      var d := Run(init).dispatcher;
      if s.Timer? {
        forall e | e in InOrder(d.pending, d.order) ensures e in Offered(steps) {
          InOrderIsPending(d.pending, d.order, e);
        }
      }
    }
  }

  // ---- before a session is established ----------------------------------------------------

  /** Some event carries a complete run. */
  predicate AnyComplete(events: seq<Event>) {
    events != [] && (IsComplete(events[|events| - 1].run) || AnyComplete(events[..|events| - 1]))
  }

  /** A session that was left before stays out. */
  lemma {:induction false} RetiredSessionStaysOut(f: Facts, events: seq<Event>, session: string)
    requires session != "" && session != f.session && session in f.retired
    requires forall e :: e in events ==> InSession(e, session)
    ensures Deliveries(f, events) == f
    decreases |events|
  {
    if events != [] {
      assert events[|events| - 1] in events;
      RetiredSessionStaysOut(f, events[..|events| - 1], session);
    }
  }

  /** The first complete event establishes the session with an empty cache; the others
      then find the cache they would have found there. */
  lemma {:induction false} FirstEventEstablishes(f: Facts, events: seq<Event>, session: string)
    requires f.session == "" && session != "" && session !in f.retired
    requires forall e :: e in events ==> InSession(e, session)
    ensures Deliveries(f, events)
         == if AnyComplete(events) then Deliveries(Facts(map[], session, f.retired), events) else f
    ensures var g := Deliveries(Facts(map[], session, f.retired), events);
            g.session == session && (g.byId == map[] <==> !AnyComplete(events))
            && (!AnyComplete(events) ==> g == Facts(map[], session, f.retired))
    decreases |events|
  {
    if events != [] {
      assert events[|events| - 1] in events;
      FirstEventEstablishes(f, events[..|events| - 1], session);
    }
  }

  /** The session of the events is the established one, whose facts are comparable with
      them, or none is established yet. */
  ghost predicate Open(f: Facts, session: string) {
    Comparable(f, session) || (f.session == "" && session != "")
  }

  /** For any order of events and timers within one session, established or not, with
      one identity per task and revisions that determine their summaries: coalescing
      and then flushing leaves the cache exactly as direct delivery does. */
  lemma {:induction false} CoalescingIsInvisible(f: Facts, session: string, steps: seq<Step>)
    requires Open(f, session) && Coherent(Offered(steps), session)
    ensures Deliveries(f, Run(steps + [Timer]).emitted) == Deliveries(f, Offered(steps))
  {
    if Comparable(f, session) {
      EstablishedIsInvisible(f, steps);
    } else {
      var all := steps + [Timer];
      var offered, emitted := Offered(steps), Run(all).emitted;
      assert all[..|all| - 1] == steps && Offered(all) == offered;
      EmittedWereOffered(all);
      if session in f.retired {
        RetiredSessionStaysOut(f, offered, session);
        RetiredSessionStaysOut(f, emitted, session);
      } else {
        FirstEventEstablishes(f, offered, session);
        FirstEventEstablishes(f, emitted, session);
        EstablishedIsInvisible(Facts(map[], session, f.retired), steps);
      }
    }
  }

  // ---- including the bounded cache ---------------------------------------------------

  /** The caches the store goes through while it records live events one by one. */
  ghost predicate IsLiveTrace(stores: seq<Facts>, events: seq<Event>) {
    && |stores| == |events| + 1
    && forall i :: 0 <= i < |events| ==> Recorded(stores[i], [events[i].run], false, "", stores[i + 1])
  }

  /** Tasks that are terminal in the cache or in some event. */
  function EverTerminal(f: Facts, events: seq<Event>): set<string> {
    TerminalIds(f.byId) + set e | e in events && IsTerminal(e.run.status) :: e.run.taskId
  }

  lemma {:induction false} DeliveriesTerminal(f: Facts, events: seq<Event>)
    ensures TerminalIds(Deliveries(f, events).byId) <= EverTerminal(f, events)
    decreases |events|
  {
    if events != [] {
      var init, e := events[..|events| - 1], events[|events| - 1];
      DeliveriesTerminal(f, init);
      assert e in events;
      assert EverTerminal(f, init) <= EverTerminal(f, events);
      var g := Deliveries(f, init);
      assert TerminalIds(RecordOne(g, e.run, false).byId)
             <= TerminalIds(g.byId) + if IsTerminal(e.run.status) then {e.run.taskId} else {};
    }
  }

  // Without eviction the store does nothing but record.
  lemma {:induction false} TraceIsDeliveries(stores: seq<Facts>, events: seq<Event>, n: nat)
    requires IsLiveTrace(stores, events) && n <= |events|
    requires |EverTerminal(stores[0], events)| <= MAX_TERMINAL
    ensures stores[n] == Deliveries(stores[0], events[..n])
    decreases n
  {
    if n > 0 {
      TraceIsDeliveries(stores, events, n - 1);
      assert events[..n][..|events[..n]| - 1] == events[..n - 1];
      var run := events[n - 1].run;
      assert [run][..0] == [];
      assert RecordAll(stores[n - 1], [run], false) == RecordOne(stores[n - 1], run, false);
      DeliveriesTerminal(stores[0], events[..n]);
      assert EverTerminal(stores[0], events[..n]) <= EverTerminal(stores[0], events);
      SubsetSize(TerminalIds(Deliveries(stores[0], events[..n]).byId), EverTerminal(stores[0], events));
      assert Recorded(stores[n - 1], [run], false, "", stores[n]);
    }
  }

  /** The same for the store as it is, bounded cache included: while at most 256
      tasks are ever terminal, the last cache of any store that receives the
      coalesced events equals the last cache of any store that receives them all. */
  lemma {:induction false} CoalescingIsInvisibleToStore(steps: seq<Step>, session: string, direct: seq<Facts>, coalesced: seq<Facts>)
    requires IsLiveTrace(direct, Offered(steps))
    requires IsLiveTrace(coalesced, Run(steps + [Timer]).emitted) && direct[0] == coalesced[0]
    requires Open(direct[0], session) && Coherent(Offered(steps), session)
    requires |EverTerminal(direct[0], Offered(steps))| <= MAX_TERMINAL
    ensures direct[|direct| - 1] == coalesced[|coalesced| - 1]
  {
    var f, all := direct[0], steps + [Timer];
    var offered, emitted := Offered(steps), Run(all).emitted;
    assert all[..|all| - 1] == steps;
    EmittedWereOffered(all);
    assert Offered(all) == offered;
    assert EverTerminal(f, emitted) <= EverTerminal(f, offered);
    SubsetSize(EverTerminal(f, emitted), EverTerminal(f, offered));
    TraceIsDeliveries(direct, offered, |offered|);
    TraceIsDeliveries(coalesced, emitted, |emitted|);
    assert offered[..|offered|] == offered && emitted[..|emitted|] == emitted;
    CoalescingIsInvisible(f, session, steps);
  }

  // ---- the dispatcher object ------------------------------------------------------------

  lemma {:induction false} InOrderStep(events: map<Key, Event>, order: seq<Key>, i: nat)
    requires i < |order| && forall k :: k in order ==> k in events
    ensures order[i] in events
    ensures InOrder(events, order[..i + 1]) == InOrder(events, order[..i]) + [events[order[i]]]
  {
    assert order[i] in order;
    assert order[..i + 1][..|order[..i + 1]| - 1] == order[..i];
  }

  class WorkflowEventDispatcher {
    var workflowPending: map<Key, Event>
    var pendingOrder: seq<Key>
    var workflowTimer: bool
    /** What the owner and the listeners have received. */
    var emitted: seq<Event>

    ghost function Model(): Dispatcher
      reads this
    {
      Dispatcher(workflowPending, pendingOrder, workflowTimer)
    }

    constructor ()
      ensures Model() == IDLE && Valid(Model()) && emitted == []
    {
      workflowPending, pendingOrder, workflowTimer, emitted := map[], [], false, [];
    }

    method DispatchWorkflow(event: Event)
      requires Valid(Model())
      modifies this
      ensures Valid(Model())
      ensures Model() == Dispatch(old(Model()), event).dispatcher
      ensures emitted == old(emitted) + Dispatch(old(Model()), event).emitted
    {
      DispatchStaysValid(Model(), event);
      if event.taskId == "" {
        emitted := emitted + [event];
        return;
      }
      var key := KeyOf(event);
      if key in workflowPending && Compare(event.run, workflowPending[key].run) < 0 {
        return;
      }
      if event.run.status.Running? {
        if key !in workflowPending { pendingOrder := pendingOrder + [key]; }
        workflowPending := workflowPending[key := event];
        workflowTimer := true;
        return;
      }
      workflowPending := workflowPending - {key};
      pendingOrder := Without(pendingOrder, key);
      emitted := emitted + [event];
    }

    method FlushPendingWorkflows()
      requires Valid(Model())
      modifies this
      ensures Model() == IDLE && Valid(Model())
      ensures emitted == old(emitted) + FlushWorkflows(old(Model())).emitted
    {
      workflowTimer := false;
      var events, order := workflowPending, pendingOrder;
      workflowPending, pendingOrder := map[], [];
      EmitAll(events, order);
    }

    method EmitAll(events: map<Key, Event>, order: seq<Key>)
      requires forall k :: k in order ==> k in events
      modifies `emitted
      ensures emitted == old(emitted) + InOrder(events, order)
    {
      ghost var before := emitted;
      var i := 0;
      while i < |order|
        invariant 0 <= i <= |order|
        invariant emitted == before + InOrder(events, order[..i])
      {
        InOrderStep(events, order, i);
        emitted := emitted + [events[order[i]]];
        i := i + 1;
      }
      assert order[..|order|] == order;
    }
  }
}
