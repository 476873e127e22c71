/** Revocation of project trust among concurrent threads (`AppState` in
    `src-tauri/src/app_state.rs`).

    Threads serialise on a lane per root to resolve a project's authority and to
    issue launch permits. Permits are begun, and publications end, outside any lane.
    A revocation closes the launch owners of the root, revokes the registry entry,
    leaves the lane and then waits for each owner to drain. Registry calls made
    outside a lane (opening, creating or relocating a project, granting trust) may
    happen between any two steps. */
module TrustProtocol {
  import opened Common
  import opened Paths
  import Reg = ProjectRegistry
  import L = LaunchRegistry

  type ThreadId = nat
  type Key = string

  /** A trusted authority resolved inside the lane. */
  datatype Ticket = Ticket(project: Reg.ProjectId, revision: Reg.Revision)

  /** One registry revocation that succeeded: everything minted for the project
      below `before` was revoked, and `owners` had been closed. `measured` tells whether
      the root's identity could be measured at that time, `listed` the owner keys of the
      root's listed runs. */
  datatype Cut = Cut(project: Reg.ProjectId, key: Key, before: Reg.Revision, measured: bool, listed: seq<Key>,
    owners: seq<L.Owner>)

  datatype Local =
    | Idle
    | Holding(key: Key, ticket: Option<Ticket>)
    | Closing(project: Reg.ProjectId, root: Reg.Root, measured: bool, listed: seq<Key>,
              closed: seq<L.Owner>, pending: seq<L.Owner>)
    | Revoked(cut: Option<Cut>, lane: Key, barriers: seq<L.Owner>, failed: bool)
    | Waiting(cut: Option<Cut>, passed: seq<L.Owner>, waiting: seq<L.Owner>, failed: bool)

  datatype State = State(
    registry: Reg.Registry,
    launches: L.Launches,
    lanes: map<Key, ThreadId>,
    threads: map<ThreadId, Local>,
    permits: multiset<L.Permit>,
    live: map<L.Owner, seq<Reg.Revision>>,
    cuts: set<Cut>,
    succeeded: set<Cut>)

  const START := State(Reg.EMPTY, map[], map[], map[], multiset{}, map[], {}, {})

  datatype Step =
    | Acquire(thread: ThreadId, key: Key)
    | Resolve(thread: ThreadId, project: Reg.ProjectId, probe: Reg.Probe)
    | Issue(thread: ThreadId, owner: L.Owner)
    | Release(thread: ThreadId)
    | Begin(permit: L.Permit)
    | Finish(owner: L.Owner, index: nat)
    | StartRevoke(thread: ThreadId, project: Reg.ProjectId, root: Reg.Root, measured: bool, listed: seq<Key>)
    | CloseNext(thread: ThreadId)
    | RevokeEntry(thread: ThreadId, asserted: Option<Reg.Root>, otherError: bool)
    | Unlock(thread: ThreadId)
    | PassBarrier(thread: ThreadId)
    | Return(thread: ThreadId)
    | Outside(op: Reg.Operation)

  function LocalOf(s: State, t: ThreadId): Local {
    if t in s.threads then s.threads[t] else Idle
  }

  function LiveOf(s: State, owner: L.Owner): seq<Reg.Revision> {
    if owner in s.live then s.live[owner] else []
  }

  function Put(s: State, t: ThreadId, local: Local): State {
    s.(threads := s.threads[t := local])
  }

  /** The owners a revocation closes: the root's execution owner, those of the
      listed runs, and the root's own workflow owner when its identity can be
      measured. */
  function OwnersToClose(key: Key, measured: bool, listed: seq<Key>): seq<L.Owner> {
    [L.Execution(key)] + seq(|listed|, i requires 0 <= i < |listed| => L.Workflow(listed[i]))
    + (if measured then [L.Workflow(key)] else [])
  }

  /** Resolving inside the lane remembers a trusted authority only. */
  function ResolveIn(s: State, t: ThreadId, key: Key, project: Reg.ProjectId, probe: Reg.Probe): State {
    var o := Reg.ResolveAuthority(s.registry, project, probe);
    var ticket :=
      if o.result.Ok? && !o.result.value.trust.Untrusted? then Some(Ticket(project, o.result.value.revision)) else None;
    Put(s.(registry := o.registry), t, Holding(key, ticket))
  }

  function IssueIn(s: State, owner: L.Owner, revision: Reg.Revision): State {
    var permit := L.IssuedPermit(s.launches, owner, revision);
    s.(launches := L.Issue(s.launches, owner, revision),
       permits := if permit.Some? then s.permits + multiset{permit.value} else s.permits)
  }

  function BeginPermit(s: State, p: L.Permit): State {
    if L.CanBegin(s.launches, p)
    then s.(launches := L.Begin(s.launches, p), permits := s.permits - multiset{p},
            live := s.live[p.owner := LiveOf(s, p.owner) + [p.revision]])
    else s.(permits := s.permits - multiset{p})
  }

  function FinishOne(s: State, owner: L.Owner, i: nat): State
    requires i < |LiveOf(s, owner)|
  {
    var live := LiveOf(s, owner);
    s.(launches := L.Finish(s.launches, owner), live := s.live[owner := live[..i] + live[i + 1..]])
  }

  /** `revoke_trust` on the registry; `otherError` stands for a failure of any other
      part of the revocation, which is reported but does not stop it. */
  function RevokeIn(s: State, t: ThreadId, l: Local, asserted: Option<Reg.Root>, otherError: bool): State
    requires l.Closing?
  {
    var o := Reg.RevokeTrust(s.registry, l.project, asserted);
    var cut := if o.result.Ok? then Some(Cut(l.project, l.root.key, |o.registry.log|, l.measured, l.listed, l.closed)) else None;
    Put(s.(registry := o.registry, cuts := if cut.Some? then s.cuts + {cut.value} else s.cuts),
        t, Revoked(cut, l.root.key, l.closed, otherError || o.result.Err?))
  }

  /** A step that is not enabled leaves the state alone. */
  function Next(s: State, step: Step): State {
    match step
    case Acquire(t, key) =>
      if LocalOf(s, t).Idle? && key !in s.lanes
      then Put(s.(lanes := s.lanes[key := t]), t, Holding(key, None)) else s
    case Resolve(t, project, probe) =>
      var l := LocalOf(s, t);
      if l.Holding? && (probe.canonical.Some? ==> probe.canonical.value.key == l.key)
      then ResolveIn(s, t, l.key, project, probe) else s
    case Issue(t, owner) =>
      var l := LocalOf(s, t);
      if l.Holding? && l.ticket.Some? && owner.key == l.key then IssueIn(s, owner, l.ticket.value.revision) else s
    case Release(t) =>
      var l := LocalOf(s, t);
      if l.Holding? then Put(s.(lanes := s.lanes - {l.key}), t, Idle) else s
    case Begin(p) => if p in s.permits then BeginPermit(s, p) else s
    case Finish(owner, i) => if i < |LiveOf(s, owner)| then FinishOne(s, owner, i) else s
    case StartRevoke(t, project, root, measured, listed) =>
      if LocalOf(s, t).Idle? && root.key !in s.lanes
      then Put(s.(lanes := s.lanes[root.key := t]), t, Closing(project, root, measured, listed, [], OwnersToClose(root.key, measured, listed)))
      else s
    case CloseNext(t) =>
      var l := LocalOf(s, t);
      if l.Closing? && l.pending != []
      then Put(s.(launches := L.Close(s.launches, l.pending[0])), t,
               l.(closed := l.closed + [l.pending[0]], pending := l.pending[1..]))
      else s
    case RevokeEntry(t, asserted, otherError) =>
      var l := LocalOf(s, t);
      if l.Closing? && l.pending == [] && (asserted.Some? ==> asserted.value == l.root)
      then RevokeIn(s, t, l, asserted, otherError) else s
    case Unlock(t) =>
      var l := LocalOf(s, t);
      if l.Revoked? then Put(s.(lanes := s.lanes - {l.lane}), t, Waiting(l.cut, [], l.barriers, l.failed)) else s
    case PassBarrier(t) =>
      var l := LocalOf(s, t);
      if l.Waiting? && l.waiting != [] && L.Drained(s.launches, l.waiting[0])
      then Put(s, t, l.(passed := l.passed + [l.waiting[0]], waiting := l.waiting[1..])) else s
    case Return(t) =>
      var l := LocalOf(s, t);
      if l.Waiting? && l.waiting == []
      then Put(s.(succeeded := if !l.failed && l.cut.Some? then s.succeeded + {l.cut.value} else s.succeeded), t, Idle)
      else s
    case Outside(op) => s.(registry := Reg.Apply(s.registry, op))
  }

  ghost predicate Reachable(s: State) { Leads(Next, START, s) }

  // ---- what is true of every reachable state ---------------------------------------------

  /** The lane a thread has locked. */
  function LaneOf(l: Local): Option<Key> {
    match l
    case Idle => None
    case Holding(key, _) => Some(key)
    case Closing(_, root, _, _, _, _) => Some(root.key)
    case Revoked(_, lane, _, _) => Some(lane)
    case Waiting(_, _, _, _) => None
  }

  /** The revision was minted for the cut's project before the cut. */
  predicate Old(reg: Reg.Registry, c: Cut, r: Reg.Revision) {
    r < c.before && r < |reg.log| && reg.log[r].project == c.project
  }

  ghost predicate LanesOk(s: State) {
    && (forall t :: LaneOf(LocalOf(s, t)).Some? ==>
          LaneOf(LocalOf(s, t)).value in s.lanes && s.lanes[LaneOf(LocalOf(s, t)).value] == t)
    && (forall k :: k in s.lanes ==> LaneOf(LocalOf(s, s.lanes[k])) == Some(k))
  }

  /** Every open publication is counted. */
  ghost predicate CountsOk(s: State) {
    forall o :: L.StateOf(s.launches, o).publishing == |LiveOf(s, o)|
  }

  /** Tickets were granted: minted for their project as trusted. */
  predicate Granted(reg: Reg.Registry, r: Reg.Revision) {
    r < |reg.log| && !reg.log[r].trust.Untrusted?
  }

  ghost predicate TicketsOk(s: State) {
    forall t :: LocalOf(s, t).Holding? && LocalOf(s, t).ticket.Some? ==>
      var k := LocalOf(s, t).ticket.value;
      Granted(s.registry, k.revision) && s.registry.log[k.revision].project == k.project
  }

  ghost predicate GrantsOk(s: State) {
    && (forall p :: p in s.permits ==> Granted(s.registry, p.revision))
    && (forall o, i :: 0 <= i < |LiveOf(s, o)| ==> Granted(s.registry, LiveOf(s, o)[i]))
    && (forall o :: o in s.launches && s.launches[o].revision.Some? ==> Granted(s.registry, s.launches[o].revision.value))
  }

  /** Owners already closed by a revocation that still holds its lane are closed. */
  ghost predicate ClosingOk(s: State) {
    forall t, o :: LocalOf(s, t).Closing? && o in LocalOf(s, t).closed && o.key == LocalOf(s, t).root.key ==>
      o in s.launches && s.launches[o].closed
  }

  /** A cut project is untrusted, or was granted trust again after the cut. */
  ghost predicate CutEntryOk(s: State, c: Cut) {
    && c.before <= |s.registry.log|
    && c.project in s.registry.projects
    && (s.registry.projects[c.project].trust.Untrusted? || s.registry.projects[c.project].revision >= c.before)
  }

  /** No ticket in the lane of a cut carries an old revision. */
  ghost predicate CutTicketsOk(s: State, c: Cut) {
    forall t :: LocalOf(s, t).Holding? && LocalOf(s, t).key == c.key && LocalOf(s, t).ticket.Some? ==>
      !Old(s.registry, c, LocalOf(s, t).ticket.value.revision)
  }

  /** A closed owner stays closed until it is opened for a later authority. */
  predicate Shut(s: State, c: Cut, o: L.Owner) {
    o in s.launches && (s.launches[o].closed || (s.launches[o].revision.Some? && !Old(s.registry, c, s.launches[o].revision.value)))
  }

  ghost predicate CutOwnersOk(s: State, c: Cut) {
    forall o :: o in c.owners && o.key == c.key ==> Shut(s, c, o)
  }

  /** No open publication of the owner carries an old revision. */
  ghost predicate Clean(s: State, c: Cut, o: L.Owner) {
    forall i :: 0 <= i < |LiveOf(s, o)| ==> !Old(s.registry, c, LiveOf(s, o)[i])
  }

  ghost predicate CutOk(s: State, c: Cut) {
    CutEntryOk(s, c) && CutTicketsOk(s, c) && CutOwnersOk(s, c)
  }

  ghost predicate LocalCutOk(s: State, l: Local) {
    && (l.Revoked? ==> (l.cut.Some? ==> l.cut.value in s.cuts && l.cut.value.owners == l.barriers && l.cut.value.key == l.lane))
    && (l.Waiting? ==> (l.cut.Some? ==>
          && l.cut.value in s.cuts && l.cut.value.owners == l.passed + l.waiting
          && forall o :: o in l.passed && o.key == l.cut.value.key ==> Clean(s, l.cut.value, o)))
  }

  ghost predicate SucceededOk(s: State) {
    forall c :: c in s.succeeded ==> c in s.cuts && forall o :: o in c.owners && o.key == c.key ==> Clean(s, c, o)
  }

  ghost predicate AuthorityOk(s: State) {
    && Reg.Valid(s.registry)
    && CountsOk(s) && TicketsOk(s) && GrantsOk(s) && ClosingOk(s)
    && (forall c :: c in s.cuts ==> CutOk(s, c))
    && (forall t :: LocalCutOk(s, LocalOf(s, t)))
    && SucceededOk(s)
  }

  ghost predicate Inv(s: State) {
    LanesOk(s) && AuthorityOk(s)
  }

  /** What a thread needs to enter local state `l`, apart from the lane. */
  ghost predicate Fits(s: State, l: Local) {
    && (l.Holding? && l.ticket.Some? ==>
          && Granted(s.registry, l.ticket.value.revision)
          && s.registry.log[l.ticket.value.revision].project == l.ticket.value.project
          && forall c :: c in s.cuts && c.key == l.key ==> !Old(s.registry, c, l.ticket.value.revision))
    && (l.Closing? ==> forall o :: o in l.closed && o.key == l.root.key ==> o in s.launches && s.launches[o].closed)
    && LocalCutOk(s, l)
  }

  // ---- each step keeps it ----------------------------------------------------------------------

  lemma RegistryMoves(reg: Reg.Registry, op: Reg.Operation, c: Cut)
    requires Reg.Valid(reg) && c.before <= |reg.log|
    ensures var reg' := Reg.Apply(reg, op);
            && reg.log <= reg'.log && Reg.Valid(reg')
            && (forall r: nat :: Old(reg', c, r) <==> Old(reg, c, r))
            && (forall r: nat :: Granted(reg, r) ==> Granted(reg', r) && reg'.log[r] == reg.log[r])
  {
    Reg.ApplyKeepsValid(reg, op);
  }

  lemma EntryStaysCut(s: State, op: Reg.Operation, c: Cut)
    requires Reg.Valid(s.registry) && CutEntryOk(s, c)
    ensures CutEntryOk(s.(registry := Reg.Apply(s.registry, op)), c)
  {
    Reg.ApplyKeepsValid(s.registry, op);
    Reg.ChangesMintFreshRevisions(s.registry, op, c.project);
  }

  lemma OutsideKeepsInv(s: State, op: Reg.Operation)
    requires Inv(s)
    ensures Inv(s.(registry := Reg.Apply(s.registry, op)))
  {
    var s' := s.(registry := Reg.Apply(s.registry, op));
    assert forall t :: LocalOf(s', t) == LocalOf(s, t);
    assert forall o :: LiveOf(s', o) == LiveOf(s, o);
    Reg.ApplyKeepsValid(s.registry, op);
    forall c | c in s.cuts
      ensures CutOk(s', c) && forall o :: Clean(s, c, o) ==> Clean(s', c, o)
    {
      OutsideKeepsCut(s, op, c);
    }
    forall t ensures LocalCutOk(s', LocalOf(s', t)) { assert LocalCutOk(s, LocalOf(s, t)); }
  }

  lemma OutsideKeepsCut(s: State, op: Reg.Operation, c: Cut)
    requires Reg.Valid(s.registry) && CutOk(s, c)
    ensures var s' := s.(registry := Reg.Apply(s.registry, op));
            CutOk(s', c) && forall o :: Clean(s, c, o) ==> Clean(s', c, o)
  {
    var s' := s.(registry := Reg.Apply(s.registry, op));
    assert forall t :: LocalOf(s', t) == LocalOf(s, t);
    assert forall o :: LiveOf(s', o) == LiveOf(s, o);
    RegistryMoves(s.registry, op, c);
    EntryStaysCut(s, op, c);
    forall o | o in c.owners && o.key == c.key ensures Shut(s', c, o) { assert Shut(s, c, o); }
  }

  predicate OnlyMoved(s: State, s': State, t: ThreadId) {
    s'.threads.Keys == s.threads.Keys + {t} && forall u :: u in s.threads && u != t ==> s'.threads[u] == s.threads[u]
  }

  lemma OthersUntouched(s: State, s': State, t: ThreadId)
    requires OnlyMoved(s, s', t)
    ensures forall u :: u != t ==> LocalOf(s', u) == LocalOf(s, u)
  {
  }

  // The parts of the invariant that do not look at threads.
  lemma SameLaunches(s: State, s': State)
    requires s'.registry == s.registry && s'.launches == s.launches && s'.live == s.live
    ensures forall c, o :: Clean(s, c, o) <==> Clean(s', c, o)
    ensures forall c :: CutOwnersOk(s, c) <==> CutOwnersOk(s', c)
    ensures forall c :: CutEntryOk(s, c) <==> CutEntryOk(s', c)
    ensures CountsOk(s) <==> CountsOk(s')
  {
    assert forall o :: LiveOf(s', o) == LiveOf(s, o);
    assert forall c, o :: Shut(s, c, o) <==> Shut(s', c, o);
  }

  /** A thread moves; owners, publications and the registry do not. */
  lemma MoveKeepsAuthority(s: State, t: ThreadId, l: Local, lanes: map<Key, ThreadId>)
    requires AuthorityOk(s) && Fits(s, l)
    ensures AuthorityOk(Put(s.(lanes := lanes), t, l))
  {
    var s' := Put(s.(lanes := lanes), t, l);
    OthersUntouched(s, s', t);
    SameLaunches(s, s');
    forall c | c in s.cuts ensures CutOk(s', c) { assert CutOk(s, c); }
    forall u ensures LocalCutOk(s', LocalOf(s', u)) { assert LocalCutOk(s, LocalOf(s, u)); }
  }

  lemma EnterKeepsLanes(s: State, t: ThreadId, key: Key, l: Local)
    requires LanesOk(s) && LaneOf(LocalOf(s, t)).None? && key !in s.lanes && LaneOf(l) == Some(key)
    ensures LanesOk(Put(s.(lanes := s.lanes[key := t]), t, l))
  {
    OthersUntouched(s, Put(s.(lanes := s.lanes[key := t]), t, l), t);
  }

  lemma LeaveKeepsLanes(s: State, t: ThreadId, key: Key, l: Local)
    requires LanesOk(s) && LaneOf(LocalOf(s, t)) == Some(key) && LaneOf(l).None?
    ensures LanesOk(Put(s.(lanes := s.lanes - {key}), t, l))
  {
    OthersUntouched(s, Put(s.(lanes := s.lanes - {key}), t, l), t);
  }

  lemma StayKeepsLanes(s: State, t: ThreadId, l: Local)
    requires LanesOk(s) && LaneOf(LocalOf(s, t)) == LaneOf(l)
    ensures LanesOk(Put(s, t, l))
  {
    OthersUntouched(s, Put(s, t, l), t);
  }

  lemma EnterKeepsInv(s: State, t: ThreadId, key: Key, l: Local)
    requires Inv(s) && LaneOf(LocalOf(s, t)).None? && key !in s.lanes && LaneOf(l) == Some(key) && Fits(s, l)
    ensures Inv(Put(s.(lanes := s.lanes[key := t]), t, l))
  {
    MoveKeepsAuthority(s, t, l, s.lanes[key := t]);
    EnterKeepsLanes(s, t, key, l);
  }

  lemma LeaveKeepsInv(s: State, t: ThreadId, key: Key, l: Local)
    requires Inv(s) && LaneOf(LocalOf(s, t)) == Some(key) && LaneOf(l).None? && Fits(s, l)
    ensures Inv(Put(s.(lanes := s.lanes - {key}), t, l))
  {
    MoveKeepsAuthority(s, t, l, s.lanes - {key});
    LeaveKeepsLanes(s, t, key, l);
  }

  lemma StayKeepsInv(s: State, t: ThreadId, l: Local)
    requires Inv(s) && LaneOf(LocalOf(s, t)) == LaneOf(l) && Fits(s, l)
    ensures Inv(Put(s, t, l))
  {
    MoveKeepsAuthority(s, t, l, s.lanes);
    StayKeepsLanes(s, t, l);
    assert s.(lanes := s.lanes) == s;
  }

  /** A ticket taken from a current trusted entry is newer than every cut. */
  lemma CurrentTicketFits(s: State, key: Key, ticket: Ticket)
    requires AuthorityOk(s)
    requires ticket.project in s.registry.projects
    requires s.registry.projects[ticket.project].revision == ticket.revision && !s.registry.projects[ticket.project].trust.Untrusted?
    ensures Fits(s, Holding(key, Some(ticket)))
  {
    assert Reg.EntryOk(s.registry, ticket.project);
    forall c | c in s.cuts ensures !Old(s.registry, c, ticket.revision) { assert CutOk(s, c); }
  }

  lemma ResolveKeepsInv(s: State, t: ThreadId, project: Reg.ProjectId, probe: Reg.Probe)
    requires Inv(s) && LocalOf(s, t).Holding?
    ensures Inv(ResolveIn(s, t, LocalOf(s, t).key, project, probe))
  {
    var op := Reg.ResolveOp(project, probe);
    OutsideKeepsInv(s, op);
    var mid := s.(registry := Reg.Apply(s.registry, op));
    assert LocalOf(mid, t) == LocalOf(s, t);
    var o := Reg.ResolveAuthority(s.registry, project, probe);
    var ticket :=
      if o.result.Ok? && !o.result.value.trust.Untrusted? then Some(Ticket(project, o.result.value.revision)) else None;
    if ticket.Some? { CurrentTicketFits(mid, LocalOf(s, t).key, ticket.value); }
    StayKeepsInv(mid, t, Holding(LocalOf(s, t).key, ticket));
  }

  lemma IssueKeepsInv(s: State, t: ThreadId, owner: L.Owner)
    requires Inv(s) && LocalOf(s, t).Holding? && LocalOf(s, t).ticket.Some? && owner.key == LocalOf(s, t).key
    ensures Inv(IssueIn(s, owner, LocalOf(s, t).ticket.value.revision))
  {
    var r := LocalOf(s, t).ticket.value.revision;
    var s' := IssueIn(s, owner, r);
    assert forall u :: LocalOf(s', u) == LocalOf(s, u);
    assert forall o :: LiveOf(s', o) == LiveOf(s, o);
    assert forall o :: o != owner ==> L.StateOf(s'.launches, o) == L.StateOf(s.launches, o);
    forall c | c in s.cuts ensures CutOk(s', c) && forall o :: Clean(s, c, o) ==> Clean(s', c, o) {
      assert CutOk(s, c);
      forall o | o in c.owners && o.key == c.key ensures Shut(s', c, o) { assert Shut(s, c, o); }
    }
    forall u ensures LocalCutOk(s', LocalOf(s', u)) { assert LocalCutOk(s, LocalOf(s, u)); }
    forall u, o | LocalOf(s, u).Closing? && o in LocalOf(s, u).closed && o.key == LocalOf(s, u).root.key
      ensures o in s'.launches && s'.launches[o].closed
    {
      assert s.lanes[o.key] == u;
      assert o != owner;
    }
  }

  lemma BeginKeepsOwner(s: State, p: L.Permit, c: Cut, o: L.Owner)
    requires Shut(s, c, o)
    ensures Shut(BeginPermit(s, p), c, o)
    ensures Clean(s, c, o) ==> Clean(BeginPermit(s, p), c, o)
  {
    var s' := BeginPermit(s, p);
    if Clean(s, c, o) {
      if L.CanBegin(s.launches, p) && p.owner == o {
        assert LiveOf(s', o) == LiveOf(s, o) + [p.revision];
        assert !Old(s.registry, c, p.revision);
      } else {
        assert LiveOf(s', o) == LiveOf(s, o);
      }
    }
  }

  lemma BeginKeepsCounts(s: State, p: L.Permit)
    requires CountsOk(s)
    ensures CountsOk(BeginPermit(s, p))
  {
    var s' := BeginPermit(s, p);
    forall o ensures L.StateOf(s'.launches, o).publishing == |LiveOf(s', o)| {
      assert L.StateOf(s.launches, o).publishing == |LiveOf(s, o)|;
    }
  }

  lemma BeginKeepsGrants(s: State, p: L.Permit)
    requires GrantsOk(s) && p in s.permits
    ensures GrantsOk(BeginPermit(s, p))
  {
    var s' := BeginPermit(s, p);
    assert forall q :: q in s'.permits ==> q in s.permits;
    forall o, i | 0 <= i < |LiveOf(s', o)| ensures Granted(s'.registry, LiveOf(s', o)[i]) {
      assert i < |LiveOf(s, o)| ==> LiveOf(s', o)[i] == LiveOf(s, o)[i];
    }
  }

  lemma BeginKeepsCut(s: State, p: L.Permit, c: Cut)
    requires CutOk(s, c)
    ensures CutOk(BeginPermit(s, p), c)
    ensures forall o :: o in c.owners && o.key == c.key && Clean(s, c, o) ==> Clean(BeginPermit(s, p), c, o)
  {
    var s' := BeginPermit(s, p);
    forall o | o in c.owners && o.key == c.key
      ensures Shut(s', c, o) && (Clean(s, c, o) ==> Clean(s', c, o))
    {
      BeginKeepsOwner(s, p, c, o);
    }
    assert forall u :: LocalOf(s', u) == LocalOf(s, u);
  }

  lemma BeginKeepsClosing(s: State, p: L.Permit)
    requires ClosingOk(s)
    ensures ClosingOk(BeginPermit(s, p))
  {
    var s' := BeginPermit(s, p);
    assert forall u :: LocalOf(s', u) == LocalOf(s, u);
    assert forall o :: o in s.launches ==> o in s'.launches && s'.launches[o].closed == s.launches[o].closed;
  }

  lemma BeginKeepsInv(s: State, p: L.Permit)
    requires Inv(s) && p in s.permits
    ensures Inv(BeginPermit(s, p))
  {
    var s' := BeginPermit(s, p);
    assert forall u :: LocalOf(s', u) == LocalOf(s, u);
    BeginKeepsCounts(s, p);
    BeginKeepsGrants(s, p);
    BeginKeepsClosing(s, p);
    forall c | c in s.cuts
      ensures CutOk(s', c)
      ensures forall o :: o in c.owners && o.key == c.key && Clean(s, c, o) ==> Clean(s', c, o)
    {
      BeginKeepsCut(s, p, c);
    }
    forall u ensures LocalCutOk(s', LocalOf(s', u)) { assert LocalCutOk(s, LocalOf(s, u)); }
  }

  lemma FinishKeepsInv(s: State, owner: L.Owner, i: nat)
    requires Inv(s) && i < |LiveOf(s, owner)|
    ensures Inv(FinishOne(s, owner, i))
  {
    var s' := FinishOne(s, owner, i);
    assert forall u :: LocalOf(s', u) == LocalOf(s, u);
    assert L.StateOf(s.launches, owner).publishing == |LiveOf(s, owner)|;
    forall o ensures L.StateOf(s'.launches, o).publishing == |LiveOf(s', o)| {
      assert L.StateOf(s.launches, o).publishing == |LiveOf(s, o)|;
    }
    assert forall o, r :: r in LiveOf(s', o) ==> r in LiveOf(s, o);
    forall c | c in s.cuts
      ensures CutOk(s', c) && forall o :: Clean(s, c, o) ==> Clean(s', c, o)
    {
      assert CutOk(s, c);
      forall o | o in c.owners && o.key == c.key ensures Shut(s', c, o) { assert Shut(s, c, o); }
      forall o | Clean(s, c, o) ensures Clean(s', c, o) {
        forall j | 0 <= j < |LiveOf(s', o)| ensures !Old(s'.registry, c, LiveOf(s', o)[j]) {
          assert LiveOf(s', o)[j] in LiveOf(s, o);
        }
      }
    }
    forall o, j | 0 <= j < |LiveOf(s', o)| ensures Granted(s'.registry, LiveOf(s', o)[j]) {
      assert LiveOf(s', o)[j] in LiveOf(s, o);
    }
    forall u ensures LocalCutOk(s', LocalOf(s', u)) { assert LocalCutOk(s, LocalOf(s, u)); }
  }

  function CloseOne(s: State, t: ThreadId, l: Local): State
    requires l.Closing? && l.pending != []
  {
    Put(s.(launches := L.Close(s.launches, l.pending[0])), t,
        l.(closed := l.closed + [l.pending[0]], pending := l.pending[1..]))
  }

  lemma CloseKeepsAuthority(s: State, owner: L.Owner)
    requires AuthorityOk(s)
    ensures AuthorityOk(s.(launches := L.Close(s.launches, owner)))
  {
    var s' := s.(launches := L.Close(s.launches, owner));
    assert forall u :: LocalOf(s', u) == LocalOf(s, u);
    assert forall o :: LiveOf(s', o) == LiveOf(s, o);
    assert forall o :: o != owner ==> L.StateOf(s'.launches, o) == L.StateOf(s.launches, o);
    forall c | c in s.cuts ensures CutOk(s', c) && forall o :: Clean(s, c, o) ==> Clean(s', c, o) {
      assert CutOk(s, c);
      forall o | o in c.owners && o.key == c.key ensures Shut(s', c, o) { assert Shut(s, c, o); }
    }
    forall u ensures LocalCutOk(s', LocalOf(s', u)) { assert LocalCutOk(s, LocalOf(s, u)); }
  }

  lemma CloseKeepsInv(s: State, t: ThreadId)
    requires Inv(s) && LocalOf(s, t).Closing? && LocalOf(s, t).pending != []
    ensures Inv(CloseOne(s, t, LocalOf(s, t)))
  {
    var l := LocalOf(s, t);
    var mid := s.(launches := L.Close(s.launches, l.pending[0]));
    CloseKeepsAuthority(s, l.pending[0]);
    assert forall u :: LocalOf(mid, u) == LocalOf(s, u);
    StayKeepsInv(mid, t, l.(closed := l.closed + [l.pending[0]], pending := l.pending[1..]));
  }

  lemma SucceedKeepsInv(s: State, c: Cut)
    requires Inv(s) && c in s.cuts && forall o :: o in c.owners && o.key == c.key ==> Clean(s, c, o)
    ensures Inv(s.(succeeded := s.succeeded + {c}))
  {
    var s' := s.(succeeded := s.succeeded + {c});
    assert forall u :: LocalOf(s', u) == LocalOf(s, u);
    SameLaunches(s, s');
    forall d | d in s'.cuts ensures CutOk(s', d) { assert CutOk(s, d); }
    forall u ensures LocalCutOk(s', LocalOf(s', u)) { assert LocalCutOk(s, LocalOf(s, u)); }
  }

  lemma ReturnKeepsInv(s: State, t: ThreadId)
    requires Inv(s) && LocalOf(s, t).Waiting? && LocalOf(s, t).waiting == []
    ensures Inv(Next(s, Return(t)))
  {
    var l := LocalOf(s, t);
    assert LocalCutOk(s, l);
    assert l.passed + l.waiting == l.passed;
    var mid := s;
    if !l.failed && l.cut.Some? {
      SucceedKeepsInv(s, l.cut.value);
      mid := s.(succeeded := s.succeeded + {l.cut.value});
    }
    StayKeepsInv(mid, t, Idle);
  }

  /** The registry entry is untrusted, no other thread is in the lane and all owners
      are closed: the cut holds from here on. */
  lemma NewCutHolds(s: State, t: ThreadId, c: Cut)
    requires Inv(s) && LocalOf(s, t).Closing?
    requires c.project in s.registry.projects && s.registry.projects[c.project].trust.Untrusted?
    requires c.before == |s.registry.log| && c.key == LocalOf(s, t).root.key && c.owners == LocalOf(s, t).closed
    ensures CutOk(s, c)
  {
    assert s.lanes[c.key] == t;
    assert forall u :: LocalOf(s, u).Holding? ==> LocalOf(s, u).key != c.key;
  }

  lemma CutKeepsInv(s: State, t: ThreadId, c: Cut, failed: bool)
    requires Inv(s) && LocalOf(s, t).Closing? && CutOk(s, c)
    requires c.key == LocalOf(s, t).root.key && c.owners == LocalOf(s, t).closed
    ensures Inv(Put(s.(cuts := s.cuts + {c}), t, Revoked(Some(c), c.key, c.owners, failed)))
  {
    var mid := s.(cuts := s.cuts + {c});
    assert forall u :: LocalOf(mid, u) == LocalOf(s, u);
    SameLaunches(s, mid);
    forall d | d in mid.cuts ensures CutOk(mid, d) { assert CutOk(s, d); }
    forall u ensures LocalCutOk(mid, LocalOf(mid, u)) { assert LocalCutOk(s, LocalOf(s, u)); }
    StayKeepsInv(mid, t, Revoked(Some(c), c.key, c.owners, failed));
  }

  lemma RevokeKeepsInv(s: State, t: ThreadId, asserted: Option<Reg.Root>, otherError: bool)
    requires Inv(s) && LocalOf(s, t).Closing?
    ensures Inv(RevokeIn(s, t, LocalOf(s, t), asserted, otherError))
  {
    var l := LocalOf(s, t);
    var op := Reg.RevokeOp(l.project, asserted);
    OutsideKeepsInv(s, op);
    var mid := s.(registry := Reg.Apply(s.registry, op));
    assert LocalOf(mid, t) == l;
    var o := Reg.RevokeTrust(s.registry, l.project, asserted);
    if o.result.Ok? {
      var c := Cut(l.project, l.root.key, |o.registry.log|, l.measured, l.listed, l.closed);
      NewCutHolds(mid, t, c);
      CutKeepsInv(mid, t, c, otherError);
    } else {
      StayKeepsInv(mid, t, Revoked(None, l.root.key, l.closed, true));
    }
  }

  lemma NextKeepsInv(s: State, step: Step)
    requires Inv(s)
    ensures Inv(Next(s, step))
  {
    if Next(s, step) != s {
      match step
      case Acquire(t, key) => EnterKeepsInv(s, t, key, Holding(key, None));
      case Resolve(t, project, probe) => ResolveKeepsInv(s, t, project, probe);
      case Issue(t, owner) => IssueKeepsInv(s, t, owner);
      case Release(t) => LeaveKeepsInv(s, t, LocalOf(s, t).key, Idle);
      case Begin(p) => BeginKeepsInv(s, p);
      case Finish(owner, i) => FinishKeepsInv(s, owner, i);
      case StartRevoke(t, project, root, measured, listed) =>
        EnterKeepsInv(s, t, root.key, Closing(project, root, measured, listed, [], OwnersToClose(root.key, measured, listed)));
      case CloseNext(t) => CloseKeepsInv(s, t);
      case RevokeEntry(t, asserted, otherError) => RevokeKeepsInv(s, t, asserted, otherError);
      case Unlock(t) => UnlockKeepsInv(s, t);
      case PassBarrier(t) => BarrierKeepsInv(s, t);
      case Return(t) => ReturnKeepsInv(s, t);
      case Outside(op) => OutsideKeepsInv(s, op);
    }
  }

  lemma UnlockKeepsInv(s: State, t: ThreadId)
    requires Inv(s) && LocalOf(s, t).Revoked?
    ensures Inv(Next(s, Unlock(t)))
  {
    var l := LocalOf(s, t);
    assert LocalCutOk(s, l);
    assert [] + l.barriers == l.barriers;
    LeaveKeepsInv(s, t, l.lane, Waiting(l.cut, [], l.barriers, l.failed));
  }

  lemma BarrierKeepsInv(s: State, t: ThreadId)
    requires Inv(s) && LocalOf(s, t).Waiting? && LocalOf(s, t).waiting != []
    requires L.Drained(s.launches, LocalOf(s, t).waiting[0])
    ensures Inv(Next(s, PassBarrier(t)))
  {
    var l := LocalOf(s, t);
    var o := l.waiting[0];
    assert LocalCutOk(s, l);
    assert L.StateOf(s.launches, o).publishing == |LiveOf(s, o)|;
    assert l.passed + l.waiting == (l.passed + [o]) + l.waiting[1..];
    StayKeepsInv(s, t, l.(passed := l.passed + [o], waiting := l.waiting[1..]));
  }

  lemma {:induction false} RunKeepsInv(trace: seq<State>, steps: seq<Step>, n: nat)
    requires IsPath(Next, trace, steps) && trace[0] == START && n < |trace|
    ensures Inv(trace[n])
    decreases n
  {
    if n > 0 {
      RunKeepsInv(trace, steps, n - 1);
      StepKeepsInv(trace, steps, n - 1);
    }
  }

  lemma {:induction false} StepKeepsInv(trace: seq<State>, steps: seq<Step>, i: nat)
    requires IsPath(Next, trace, steps) && i < |steps| && Inv(trace[i])
    ensures Inv(trace[i + 1])
  {
    NextKeepsInv(trace[i], steps[i]);
    assert trace[i + 1] == Next(trace[i], steps[i]);
  }

  lemma ReachableIsInv(s: State)
    requires Reachable(s)
    ensures Inv(s)
  {
    var trace: seq<State>, steps: seq<Step> :| IsPath(Next, trace, steps) && trace[0] == START && trace[|steps|] == s;
    RunKeepsInv(trace, steps, |steps|);
  }
}
