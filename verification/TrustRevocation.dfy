/** What a revocation of project trust promises (`revoke_project_trust` in
    `src-tauri/src/app_state.rs`). */
module TrustRevocation {
  import opened Common
  import opened Paths
  import opened TrustProtocol
  import Reg = ProjectRegistry
  import L = LaunchRegistry

  /** The owners of a root that a revocation closes: always its executions, and its
      workflow launches exactly if the root could be measured or a listed run has its
      key. */
  predicate Covers(key: Key, measured: bool, listed: seq<Key>, owners: seq<L.Owner>) {
    L.Execution(key) in owners && (L.Workflow(key) in owners <==> measured || key in listed)
  }

  predicate LocalCovers(l: Local) {
    l.Closing? ==> Covers(l.root.key, l.measured, l.listed, l.closed + l.pending)
  }

  ghost predicate CoverageOk(s: State) {
    && (forall t :: t in s.threads ==> LocalCovers(s.threads[t]))
    && (forall c :: c in s.cuts ==> Covers(c.key, c.measured, c.listed, c.owners))
  }

  lemma MoveKeepsCoverage(s: State, s': State, t: ThreadId, l: Local)
    requires CoverageOk(s) && s'.threads == s.threads[t := l] && s'.cuts == s.cuts && LocalCovers(l)
    ensures CoverageOk(s')
  {
  }

  lemma CloseKeepsCoverage(s: State, t: ThreadId)
    requires CoverageOk(s) && LocalOf(s, t).Closing? && LocalOf(s, t).pending != []
    ensures CoverageOk(CloseOne(s, t, LocalOf(s, t)))
  {
    var l := LocalOf(s, t);
    var l' := l.(closed := l.closed + [l.pending[0]], pending := l.pending[1..]);
    assert l'.closed + l'.pending == l.closed + l.pending;
    assert LocalCovers(s.threads[t]);
    MoveKeepsCoverage(s, CloseOne(s, t, l), t, l');
  }

  lemma RevokeKeepsCoverage(s: State, t: ThreadId, asserted: Option<Reg.Root>, otherError: bool)
    requires CoverageOk(s) && LocalOf(s, t).Closing? && LocalOf(s, t).pending == []
    ensures CoverageOk(RevokeIn(s, t, LocalOf(s, t), asserted, otherError))
  {
    var l := LocalOf(s, t);
    assert LocalCovers(s.threads[t]) && l.closed + l.pending == l.closed;
    var s' := RevokeIn(s, t, l, asserted, otherError);
    MoveKeepsCoverage(s, s'.(cuts := s.cuts), t, s'.threads[t]);
  }

  lemma OwnersToCloseCover(key: Key, measured: bool, listed: seq<Key>)
    ensures Covers(key, measured, listed, [] + OwnersToClose(key, measured, listed))
  {
    var owners := OwnersToClose(key, measured, listed);
    var runs := owners[1..|listed| + 1];
    assert owners == [L.Execution(key)] + runs + (if measured then [L.Workflow(key)] else []);
    assert forall i :: 0 <= i < |listed| ==> runs[i] == L.Workflow(listed[i]);
    if key in listed {
      var i :| 0 <= i < |listed| && listed[i] == key;
      assert runs[i] == L.Workflow(key);
    }
    assert [] + owners == owners;
  }

  lemma NextKeepsCoverage(s: State, step: Step)
    requires CoverageOk(s)
    ensures CoverageOk(Next(s, step))
  {
    var s' := Next(s, step);
    if s' != s {
      match step
      case CloseNext(t) => CloseKeepsCoverage(s, t);
      case RevokeEntry(t, asserted, otherError) => RevokeKeepsCoverage(s, t, asserted, otherError);
      case StartRevoke(t, project, root, measured, listed) =>
        OwnersToCloseCover(root.key, measured, listed);
        MoveKeepsCoverage(s, s', t, s'.threads[t]);
      case Acquire(t, _) => MoveKeepsCoverage(s, s', t, s'.threads[t]);
      case Resolve(t, _, _) => MoveKeepsCoverage(s, s', t, s'.threads[t]);
      case Release(t) => MoveKeepsCoverage(s, s', t, Idle);
      case Unlock(t) => MoveKeepsCoverage(s, s', t, s'.threads[t]);
      case PassBarrier(t) => MoveKeepsCoverage(s, s', t, s'.threads[t]);
      case Return(t) => MoveKeepsCoverage(s, s', t, Idle);
      case Issue(_, _) =>
      case Begin(_) =>
      case Finish(_, _) =>
      case Outside(_) =>
    }
  }

  /** Every revocation closes the root's executions, and its workflow launches exactly
      when the root could be measured or a listed run has its key. */
  lemma {:induction false} RunKeepsCoverage(trace: seq<State>, steps: seq<Step>, n: nat)
    requires IsPath(Next, trace, steps) && CoverageOk(trace[0]) && n <= |steps|
    ensures CoverageOk(trace[n])
    decreases n
  {
    if n > 0 {
      RunKeepsCoverage(trace, steps, n - 1);
      StepKeepsCoverage(trace, steps, n - 1);
    }
  }

  lemma {:induction false} StepKeepsCoverage(trace: seq<State>, steps: seq<Step>, i: nat)
    requires IsPath(Next, trace, steps) && i < |steps| && CoverageOk(trace[i])
    ensures CoverageOk(trace[i + 1])
  {
    NextKeepsCoverage(trace[i], steps[i]);
    assert trace[i + 1] == Next(trace[i], steps[i]);
  }

  lemma ReachableIsCovered(s: State)
    requires Reachable(s)
    ensures CoverageOk(s)
  {
    var trace: seq<State>, steps: seq<Step> :| IsPath(Next, trace, steps) && trace[0] == START && trace[|steps|] == s;
    RunKeepsCoverage(trace, steps, |steps|);
  }

  /** Once a revocation has returned without error, in every later state no open
      publication on its root carries a revision the project had before, and no
      permit for such a revision can begin, whether it was issued before or not. */
  lemma RevocationIsComplete(s: State, c: Cut, o: L.Owner)
    requires Reachable(s) && c in s.succeeded && o in c.owners && o.key == c.key
    ensures forall i :: 0 <= i < |LiveOf(s, o)| ==> !Old(s.registry, c, LiveOf(s, o)[i])
    ensures forall p: L.Permit :: p.owner == o && Old(s.registry, c, p.revision) ==> !L.CanBegin(s.launches, p)
  {
    ReachableIsInv(s);
    assert c in s.cuts && CutOk(s, c) && Clean(s, c, o) && Shut(s, c, o);
  }

  /** The case the documentation names: the leases of the root. */
  lemma NoRevokedLeaseIsOpen(s: State, c: Cut, i: nat)
    requires Reachable(s) && c in s.succeeded && i < |LiveOf(s, L.Execution(c.key))|
    ensures !Old(s.registry, c, LiveOf(s, L.Execution(c.key))[i])
  {
    ReachableIsInv(s);
    ReachableIsCovered(s);
    RevocationIsComplete(s, c, L.Execution(c.key));
  }

  /** A lease taken before a revocation cannot commit its result afterwards, from the
      moment the registry entry is revoked. */
  lemma RevokedLeaseCannotCommit(s: State, c: Cut, r: Reg.Revision, probe: Reg.Probe, healthy: bool)
    requires Reachable(s) && c in s.cuts && Old(s.registry, c, r)
    ensures !Reg.CommitAllowed(Reg.ResolveAuthority(s.registry, c.project, probe), healthy, r)
  {
    ReachableIsInv(s);
    assert CutOk(s, c);
  }

  /** Publications exist only for revisions that granted trust. */
  lemma EveryPublicationWasGranted(s: State, o: L.Owner, i: nat)
    requires Reachable(s) && i < |LiveOf(s, o)|
    ensures Granted(s.registry, LiveOf(s, o)[i])
  {
    ReachableIsInv(s);
  }

  // ---- trust can be granted again ------------------------------------------------------------------

  /** What the file system shows of a healthy native project. */
  function HealthyProbe(root: Reg.Root, identity: Reg.Identity): Reg.Probe {
    Reg.Probe(true, Some(root), true, true, Some(identity), Some(identity), true)
  }

  /** Registering the project as trusted mints a revision that resolves as trusted. */
  lemma RegrantResolves(reg: Reg.Registry, project: Reg.ProjectId, root: Reg.Root, identity: Reg.Identity)
    requires project in reg.projects ==> reg.projects[project].root == root
    ensures var probe := HealthyProbe(root, identity);
            var granted := Reg.Apply(reg, Reg.RegisterOp(project, probe, Reg.TrustedNative, None));
            && Reg.ResolveAuthority(granted, project, probe).result
               == Reg.Ok(Reg.Resolved(root, Reg.TrustedNative, Some(identity), |reg.log|))
            && |granted.log| == |reg.log| + 1
            && project in granted.projects && granted.projects[project].root == root
  {
  }

  lemma ResolveGivesTicket(s: State, t: ThreadId, project: Reg.ProjectId, root: Reg.Root, identity: Reg.Identity, revision: Reg.Revision)
    requires LocalOf(s, t) == Holding(root.key, None)
    requires Reg.ResolveAuthority(s.registry, project, HealthyProbe(root, identity)).result
          == Reg.Ok(Reg.Resolved(root, Reg.TrustedNative, Some(identity), revision))
    ensures var s' := Next(s, Resolve(t, project, HealthyProbe(root, identity)));
            && LocalOf(s', t) == Holding(root.key, Some(Ticket(project, revision)))
            && s'.launches == s.launches && s'.live == s.live && s'.lanes == s.lanes
            && project in s'.registry.projects && s'.registry.projects[project].root == root
  {
  }

  lemma GrantTicket(s: State, t: ThreadId, project: Reg.ProjectId, root: Reg.Root, identity: Reg.Identity) returns (s': State)
    requires LocalOf(s, t) == Holding(root.key, None)
    requires project in s.registry.projects ==> s.registry.projects[project].root == root
    ensures Leads(Next, s, s') && s'.launches == s.launches && s'.live == s.live && s'.lanes == s.lanes
    ensures LocalOf(s', t) == Holding(root.key, Some(Ticket(project, |s.registry.log|)))
    ensures project in s'.registry.projects && s'.registry.projects[project].root == root
  {
    var probe := HealthyProbe(root, identity);
    var grant := Outside(Reg.RegisterOp(project, probe, Reg.TrustedNative, None));
    RegrantResolves(s.registry, project, root, identity);
    LeadsStart(Next, s);
    LeadsOn(Next, s, s, grant);
    var granted := Next(s, grant);
    assert LocalOf(granted, t) == Holding(root.key, None);
    ResolveGivesTicket(granted, t, project, root, identity, |s.registry.log|);
    LeadsOn(Next, s, granted, Resolve(t, project, probe));
    s' := Next(granted, Resolve(t, project, probe));
  }

  /** With the lane and a trusted ticket of a revision the owner has not seen, a
      permit is issued and begins. */
  lemma TicketLease(s: State, t: ThreadId, o: L.Owner, ticket: Ticket) returns (s': State)
    requires LocalOf(s, t) == Holding(o.key, Some(ticket))
    requires L.StateOf(s.launches, o).revision != Some(ticket.revision)
    ensures Leads(Next, s, s') && ticket.revision in LiveOf(s', o)
    ensures s'.live == s.live[o := LiveOf(s, o) + [ticket.revision]]
    ensures s'.registry == s.registry && s'.lanes == s.lanes && s'.threads == s.threads
  {
    var permit := L.IssuedPermit(s.launches, o, ticket.revision).value;
    var issued := Next(s, Issue(t, o));
    assert issued == IssueIn(s, o, ticket.revision);
    assert permit in issued.permits && L.CanBegin(issued.launches, permit);
    LeadsStart(Next, s);
    LeadsOn(Next, s, s, Issue(t, o));
    LeadsOn(Next, s, issued, Begin(permit));
    s' := Next(issued, Begin(permit));
    var live := LiveOf(issued, o) + [ticket.revision];
    assert LiveOf(s', o) == live && live[|live| - 1] == ticket.revision;
  }

  /** From every reachable state, granting trust again opens the root for a lease of
      the new revision: a revocation does not outlive the next grant. */
  lemma RegrantOpensNewLease(s: State, t: ThreadId, project: Reg.ProjectId, root: Reg.Root, identity: Reg.Identity) returns (s': State)
    requires Reachable(s) && LocalOf(s, t).Idle? && root.key !in s.lanes
    requires project in s.registry.projects ==> s.registry.projects[project].root == root
    ensures Leads(Next, s, s') && |s.registry.log| in LiveOf(s', L.Execution(root.key))
  {
    ReachableIsInv(s);
    LeadsStart(Next, s);
    LeadsOn(Next, s, s, Acquire(t, root.key));
    var entered := Next(s, Acquire(t, root.key));
    assert entered == Put(s.(lanes := s.lanes[root.key := t]), t, Holding(root.key, None));
    var ready := GrantTicket(entered, t, project, root, identity);
    LeadsTransitive(Next, s, entered, ready);
    s' := TicketLease(ready, t, L.Execution(root.key), Ticket(project, |s.registry.log|));
    LeadsTransitive(Next, s, ready, s');
  }

  // ---- errors are reported ------------------------------------------------------------------------

  /** The thread is past the registry revocation, with or without an error so far. */
  predicate PastRevoke(l: Local, failed: bool) { (l.Revoked? || l.Waiting?) && l.failed == failed }

  lemma PastRevokeStays(s: State, step: Step, t: ThreadId, failed: bool)
    requires PastRevoke(LocalOf(s, t), failed) && step != Return(t)
    ensures PastRevoke(LocalOf(Next(s, step), t), failed)
  {
  }

  lemma {:induction false} PastRevokeThroughout(trace: seq<State>, steps: seq<Step>, i: nat, j: nat, t: ThreadId, failed: bool)
    requires IsPath(Next, trace, steps) && i <= j <= |steps| && PastRevoke(LocalOf(trace[i], t), failed)
    requires forall k :: i <= k < j ==> steps[k] != Return(t)
    ensures PastRevoke(LocalOf(trace[j], t), failed)
    decreases j
  {
    if i < j {
      PastRevokeThroughout(trace, steps, i, j - 1, t, failed);
      PastRevokeStays(trace[j - 1], steps[j - 1], t, failed);
      assert trace[j] == Next(trace[j - 1], steps[j - 1]);
    }
  }

  /** In every run: a revocation that came to its registry step at `i` and returns at `j`
      counts as successful if and only if the registry revoked the project at the
      asserted root and no other part reported an error. */
  lemma {:induction false} RevocationReportsErrors(trace: seq<State>, steps: seq<Step>, i: nat, j: nat)
    requires IsPath(Next, trace, steps) && i < j < |steps| && steps[i].RevokeEntry? && steps[j] == Return(steps[i].thread)
    requires var l := LocalOf(trace[i], steps[i].thread);
             l.Closing? && l.pending == [] && (steps[i].asserted.Some? ==> steps[i].asserted.value == l.root)
    requires forall k :: i < k < j ==> steps[k] != Return(steps[i].thread)
    requires LocalOf(trace[j], steps[i].thread).Waiting? && LocalOf(trace[j], steps[i].thread).waiting == []
    ensures var l, reg := LocalOf(trace[i], steps[i].thread), trace[i].registry;
            var revoked := l.project in reg.projects && steps[i].asserted == Some(reg.projects[l.project].root);
            LocalOf(trace[j], steps[i].thread).failed <==> steps[i].otherError || !revoked
    ensures LocalOf(trace[j], steps[i].thread).failed ==> trace[j + 1].succeeded == trace[j].succeeded
  {
    var t, l := steps[i].thread, LocalOf(trace[i], steps[i].thread);
    assert trace[i + 1] == Next(trace[i], steps[i]) == RevokeIn(trace[i], t, l, steps[i].asserted, steps[i].otherError);
    PastRevokeThroughout(trace, steps, i + 1, j, t, LocalOf(trace[i + 1], t).failed);
    assert trace[j + 1] == Next(trace[j], steps[j]);
  }

  // ---- a revocation can succeed ----------------------------------------------------------------

  /** A revocation that holds its lane, with the rest of its owners still to close. */
  lemma {:induction false} CloseAll(s: State, t: ThreadId) returns (s': State)
    requires LocalOf(s, t).Closing?
    ensures Leads(Next, s, s') && s'.registry == s.registry && s'.live == s.live && s'.succeeded == s.succeeded
    ensures LocalOf(s', t) == LocalOf(s, t).(closed := LocalOf(s, t).closed + LocalOf(s, t).pending, pending := [])
    decreases |LocalOf(s, t).pending|
  {
    LeadsStart(Next, s);
    s' := s;
    var l := LocalOf(s, t);
    if l.pending == [] {
      assert l.closed + l.pending == l.closed;
    } else {
      LeadsOn(Next, s, s, CloseNext(t));
      var next := Next(s, CloseNext(t));
      assert LocalOf(next, t) == l.(closed := l.closed + [l.pending[0]], pending := l.pending[1..]);
      s' := CloseAll(next, t);
      LeadsTransitive(Next, s, next, s');
      assert (l.closed + [l.pending[0]]) + l.pending[1..] == l.closed + l.pending;
    }
  }

  /** A revocation whose barriers are all clear passes them. */
  lemma {:induction false} PassAll(s: State, t: ThreadId) returns (s': State)
    requires LocalOf(s, t).Waiting? && forall o :: o in LocalOf(s, t).waiting ==> L.Drained(s.launches, o)
    ensures Leads(Next, s, s') && s'.succeeded == s.succeeded && LocalOf(s', t).Waiting? && LocalOf(s', t).waiting == []
    ensures s'.live == s.live && s'.registry == s.registry
    ensures LocalOf(s', t).cut == LocalOf(s, t).cut && LocalOf(s', t).failed == LocalOf(s, t).failed
    decreases |LocalOf(s, t).waiting|
  {
    LeadsStart(Next, s);
    s' := s;
    var l := LocalOf(s, t);
    if l.waiting != [] {
      LeadsOn(Next, s, s, PassBarrier(t));
      var next := Next(s, PassBarrier(t));
      assert LocalOf(next, t) == l.(passed := l.passed + [l.waiting[0]], waiting := l.waiting[1..]);
      s' := PassAll(next, t);
      LeadsTransitive(Next, s, next, s');
    }
  }

  /** The owners are closed: the registry is revoked and the lane left. */
  lemma RevokeAndUnlock(s: State, t: ThreadId) returns (s': State)
    requires LocalOf(s, t).Closing? && LocalOf(s, t).pending == []
    requires LocalOf(s, t).project in s.registry.projects && s.registry.projects[LocalOf(s, t).project].root == LocalOf(s, t).root
    ensures Leads(Next, s, s') && s'.live == s.live && s'.launches == s.launches && s.registry.log <= s'.registry.log
    ensures var l, w := LocalOf(s, t), LocalOf(s', t);
            w.Waiting? && !w.failed && w.waiting == l.closed
            && w.cut == Some(Cut(l.project, l.root.key, |s'.registry.log|, l.measured, l.listed, l.closed))
  {
    var l := LocalOf(s, t);
    var revoke := RevokeEntry(t, Some(l.root), false);
    LeadsStart(Next, s);
    LeadsOn(Next, s, s, revoke);
    var revoked := Next(s, revoke);
    assert revoked == RevokeIn(s, t, l, Some(l.root), false);
    LeadsOn(Next, s, revoked, Unlock(t));
    s' := Next(revoked, Unlock(t));
  }

  /** From every reachable state in which the owners to close have nothing published, the
      revocation of a registered project succeeds: the guarantees above are about
      something. */
  lemma RevocationCanSucceed(s: State, t: ThreadId, project: Reg.ProjectId, root: Reg.Root, measured: bool, listed: seq<Key>)
    returns (s': State, c: Cut)
    requires Reachable(s) && LocalOf(s, t).Idle? && root.key !in s.lanes
    requires project in s.registry.projects && s.registry.projects[project].root == root
    requires forall o :: o in OwnersToClose(root.key, measured, listed) ==> LiveOf(s, o) == []
    ensures Leads(Next, s, s') && Reachable(s') && c in s'.succeeded
    ensures s'.live == s.live && s.registry.log <= s'.registry.log
    ensures c == Cut(project, root.key, |s'.registry.log|, measured, listed, OwnersToClose(root.key, measured, listed))
  {
    var owners := OwnersToClose(root.key, measured, listed);
    LeadsStart(Next, s);
    var start := StartRevoke(t, project, root, measured, listed);
    LeadsOn(Next, s, s, start);
    var closing := Next(s, start);
    assert LocalOf(closing, t) == Closing(project, root, measured, listed, [], owners);
    assert closing.live == s.live && closing.registry == s.registry;
    var closed := CloseAll(closing, t);
    LeadsTransitive(Next, s, closing, closed);
    assert [] + owners == owners;
    var waiting := RevokeAndUnlock(closed, t);
    LeadsTransitive(Next, s, closed, waiting);
    LeadsTransitive(Next, START, s, waiting);
    ReachableIsInv(waiting);
    assert waiting.live == s.live;
    forall o | o in owners ensures L.Drained(waiting.launches, o) {
      assert LiveOf(waiting, o) == LiveOf(s, o);
      assert L.StateOf(waiting.launches, o).publishing == |LiveOf(waiting, o)|;
    }
    s' := FinishRevocation(waiting, t);
    LeadsTransitive(Next, s, waiting, s');
    LeadsTransitive(Next, START, s, s');
    c := LocalOf(waiting, t).cut.value;
  }

  lemma FinishRevocation(s: State, t: ThreadId) returns (s': State)
    requires LocalOf(s, t).Waiting? && !LocalOf(s, t).failed && LocalOf(s, t).cut.Some?
    requires forall o :: o in LocalOf(s, t).waiting ==> L.Drained(s.launches, o)
    ensures Leads(Next, s, s') && LocalOf(s, t).cut.value in s'.succeeded && s'.live == s.live && s'.registry == s.registry
  {
    var passed := PassAll(s, t);
    LeadsOn(Next, s, passed, Return(t));
    s' := Next(passed, Return(t));
  }

  /** A state after a successful revocation is reachable. */
  lemma SuccessIsReachable(project: Reg.ProjectId, root: Reg.Root, identity: Reg.Identity) returns (s: State, c: Cut)
    ensures Reachable(s) && c in s.succeeded && c.project == project && c.key == root.key
  {
    var grant := Outside(Reg.RegisterOp(project, HealthyProbe(root, identity), Reg.TrustedNative, None));
    LeadsStart(Next, START);
    LeadsOn(Next, START, START, grant);
    var granted := Next(START, grant);
    assert project in granted.registry.projects && granted.registry.projects[project].root == root;
    s, c := RevocationCanSucceed(granted, 0, project, root, true, []);
  }

  /** A project is registered as trusted and a workflow launch of it begun; the lane is
      free again. */
  lemma BegunLaunch(project: Reg.ProjectId, root: Reg.Root, identity: Reg.Identity) returns (s: State)
    ensures Reachable(s) && LocalOf(s, 0).Idle? && root.key !in s.lanes
    ensures project in s.registry.projects && s.registry.projects[project].root == root
    ensures s.live == map[L.Workflow(root.key) := [0]] && |s.registry.log| > 0 && s.registry.log[0].project == project
  {
    LeadsStart(Next, START);
    LeadsOn(Next, START, START, Acquire(0, root.key));
    var entered := Next(START, Acquire(0, root.key));
    assert LocalOf(entered, 0) == Holding(root.key, None) && entered.lanes == map[root.key := 0];
    var ready := GrantTicket(entered, 0, project, root, identity);
    LeadsTransitive(Next, START, entered, ready);
    var begun := TicketLease(ready, 0, L.Workflow(root.key), Ticket(project, 0));
    LeadsTransitive(Next, START, ready, begun);
    ReachableIsInv(ready);
    assert ready.live == map[] && LiveOf(ready, L.Workflow(root.key)) == [];
    var none: seq<Reg.Revision> := [];
    assert none + [0] == [0];
    LeadsOn(Next, START, begun, Release(0));
    s := Next(begun, Release(0));
  }

  /** A revocation that could not measure the root and finds no listed run closes the
      executions only: it succeeds while a workflow launch of the revoked authority is
      still open. */
  lemma UnmeasuredRevocationLeavesLaunch(project: Reg.ProjectId, root: Reg.Root, identity: Reg.Identity) returns (s: State, c: Cut)
    ensures Reachable(s) && c in s.succeeded && c.project == project && c.key == root.key && !c.measured && c.listed == []
    ensures LiveOf(s, L.Workflow(c.key)) == [0] && Old(s.registry, c, 0)
  {
    var begun := BegunLaunch(project, root, identity);
    assert OwnersToClose(root.key, false, []) == [L.Execution(root.key)];
    s, c := RevocationCanSucceed(begun, 0, project, root, false, []);
  }

  // ---- single steps -------------------------------------------------------------------------

  /** A permit is used up by one attempt. The publication begins if and only if its owner is
      open in the permit's own epoch. */
  lemma AttemptUsesPermit(s: State, p: L.Permit)
    requires p in s.permits
    ensures var s' := Next(s, Begin(p));
            var opens := p.owner in s.launches && s.launches[p.owner] == L.OwnerState(
                           Some(p.revision), p.generation, false, s.launches[p.owner].publishing);
            && s'.permits[p] == s.permits[p] - 1 && s'.registry == s.registry && s'.lanes == s.lanes
            && LiveOf(s', p.owner) == LiveOf(s, p.owner) + (if opens then [p.revision] else [])
            && forall o :: o != p.owner ==> LiveOf(s', o) == LiveOf(s, o)
  {
    assert LiveOf(s, p.owner) + [] == LiveOf(s, p.owner);
  }

  /** Ending a publication removes that one. */
  lemma FinishRemovesOne(s: State, o: L.Owner, i: nat)
    requires i < |LiveOf(s, o)|
    ensures var s', live := Next(s, Finish(o, i)), LiveOf(s, o);
            && LiveOf(s', o) == live[..i] + live[i + 1..]
            && s'.permits == s.permits && forall other :: other != o ==> LiveOf(s', other) == LiveOf(s, other)
  {
  }

  /** A permit is issued only inside the root's lane, for the authority resolved there, to
      one of the root's owners; it is refused if the owner is closed for that revision. */
  lemma IssueNeedsLane(s: State, t: ThreadId, o: L.Owner)
    ensures var s', l := Next(s, Issue(t, o)), LocalOf(s, t);
            if l.Holding? && l.ticket.Some? && o.key == l.key
               && !(o in s.launches && s.launches[o].closed && s.launches[o].revision == Some(l.ticket.value.revision))
            then exists g: nat :: s'.permits == s.permits + multiset{L.Permit(o, l.ticket.value.revision, g)}
            else s'.permits == s.permits
  {
    var l := LocalOf(s, t);
    if l.Holding? && l.ticket.Some? && o.key == l.key {
      var permit := L.IssuedPermit(s.launches, o, l.ticket.value.revision);
      if permit.Some? { assert permit.value == L.Permit(o, l.ticket.value.revision, permit.value.generation); }
    }
  }

  /** A lane is taken, to work or to revoke, if and only if its root is free. */
  lemma LaneIsTakenIffFree(s: State, t: ThreadId, key: Key, project: Reg.ProjectId, root: Reg.Root, measured: bool, listed: seq<Key>)
    requires LocalOf(s, t).Idle?
    ensures LocalOf(Next(s, Acquire(t, key)), t) == if key in s.lanes then Idle else Holding(key, None)
    ensures LocalOf(Next(s, StartRevoke(t, project, root, measured, listed)), t).Closing? <==> root.key !in s.lanes
  {
  }
}
