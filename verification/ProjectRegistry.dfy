/** Project trust authority (`ProjectRegistry` in `src-tauri/src/app_state.rs`).

    Every registered project carries a trust level, the directory identity the trust
    was granted for, and an authority revision that is renewed by each transition.
    Fresh UUIDs are modelled as positions in the log of everything ever minted. What
    the file system says at a call is part of the call. */
module ProjectRegistry {
  import opened Common

  type ProjectId = string
  type Revision = nat

  /** A canonical root with the key derived from its normalised path. */
  datatype Root = Root(path: string, key: string)

  /** What `project_identity` measures: path key and directory identity. */
  datatype Identity = Identity(key: string, revision: string)

  datatype Trust = Untrusted | TrustedNative | TrustedCompatible

  datatype FilesystemAccess = UnknownAccess | ReadOnly | Writable
  datatype GitState = UnknownGit | Unavailable | Dirty | Clean

  /** `WorkflowAccessSnapshot`. */
  datatype Access = Access(
    trusted: bool, filesystem: FilesystemAccess, persistent: bool, git: GitState, revision: Revision)

  datatype Entry = Entry(
    root: Root,
    trust: Trust,
    trustedIdentity: Option<string>,
    observed: Option<Identity>,
    access: Option<Access>,
    revision: Revision)

  /** What a revision was minted for. */
  datatype Grant = Grant(project: ProjectId, root: Root, trust: Trust, trustedIdentity: Option<string>)

  datatype Registry = Registry(projects: map<ProjectId, Entry>, log: seq<Grant>)

  const EMPTY := Registry(map[], [])

  datatype Failure =
    | PathInvalid | TrustAuthorityInvalid | IdentityFailed | ContextMismatch | LayoutUnresolved | RecentUpdateFailed

  datatype Result<+T> = Ok(value: T) | Err(error: Failure)

  datatype Outcome<+T> = Outcome(registry: Registry, result: Result<T>)

  /** What the file system answers during one call. The identity is measured twice
      by a registration: for the grant and as the observation. */
  datatype Probe = Probe(
    absolute: bool,
    canonical: Option<Root>,
    strictNative: bool,
    compatible: bool,
    identity: Option<Identity>,
    observedAgain: Option<Identity>,
    layout: bool)

  /** Insert or replace an entry under a fresh authority revision. */
  function Mint(reg: Registry, pid: ProjectId, root: Root, trust: Trust, trustedIdentity: Option<string>,
                observed: Option<Identity>): Registry
  {
    Registry(reg.projects[pid := Entry(root, trust, trustedIdentity, observed, None, |reg.log|)],
             reg.log + [Grant(pid, root, trust, trustedIdentity)])
  }

  /** The checks of a registration that come before the registry is locked. */
  function CheckRegistration(probe: Probe, requested: Trust, expected: Option<Identity>): Result<Root> {
    if !probe.absolute || probe.canonical.None? then Err(PathInvalid)
    else if requested.TrustedNative? && !probe.strictNative then Err(TrustAuthorityInvalid)
    else if requested.TrustedCompatible? && !probe.compatible then Err(TrustAuthorityInvalid)
    else if !requested.Untrusted? && probe.identity.None? then Err(IdentityFailed)
    else if !requested.Untrusted? && expected.Some? && probe.identity != expected then Err(TrustAuthorityInvalid)
    else Ok(probe.canonical.value)
  }

  /** `register_with_expected_authority`. A layout that does not resolve is reported
      after the registry has changed. */
  function Register(reg: Registry, pid: ProjectId, probe: Probe, requested: Trust, expected: Option<Identity>): Outcome<Root> {
    var checked := CheckRegistration(probe, requested, expected);
    if checked.Err? then Outcome(reg, checked)
    else if pid in reg.projects && reg.projects[pid].root != checked.value then Outcome(reg, Err(ContextMismatch))
    else
      var root := checked.value;
      var identity := if requested.Untrusted? then None else Some(probe.identity.value.revision);
      var reg' :=
        if pid in reg.projects && requested.Untrusted?
        then reg.(projects := reg.projects[pid := reg.projects[pid].(observed := probe.observedAgain, access := None)])
        else Mint(reg, pid, root, requested, identity, probe.observedAgain);
      Outcome(reg', if probe.layout then Ok(root) else Err(LayoutUnresolved))
  }

  /** `relocate_trusted_native`; `recentUpdated` is what the durable-ID check and
      the recent-project write answer. */
  function Relocate(reg: Registry, pid: ProjectId, previousKey: string, probe: Probe, recentUpdated: bool): Outcome<Root> {
    if probe.canonical.None? then Outcome(reg, Err(PathInvalid))
    else if !probe.strictNative then Outcome(reg, Err(TrustAuthorityInvalid))
    else if probe.identity.None? then Outcome(reg, Err(IdentityFailed))
    else if pid in reg.projects && reg.projects[pid].root.key != previousKey then Outcome(reg, Err(ContextMismatch))
    else if !recentUpdated then Outcome(reg, Err(RecentUpdateFailed))
    else Outcome(Mint(reg, pid, probe.canonical.value, TrustedNative, Some(probe.identity.value.revision), probe.identity),
                 Ok(probe.canonical.value))
  }

  /** `resolve`: the project is registered at the asserted root. */
  predicate Resolves(reg: Registry, pid: ProjectId, asserted: Option<Root>) {
    asserted.Some? && pid in reg.projects && reg.projects[pid].root == asserted.value
  }

  predicate TrustIsCurrent(e: Entry, probe: Probe) {
    && e.trustedIdentity.Some? && probe.identity.Some? && probe.identity.value.revision == e.trustedIdentity.value
    && match e.trust
       case TrustedNative => probe.strictNative
       case TrustedCompatible => probe.compatible
       case Untrusted => false
  }

  datatype Resolved = Resolved(root: Root, trust: Trust, identity: Option<Identity>, revision: Revision)

  /** `resolve_authority`: observe the directory again; a grant that no longer
      matches it is withdrawn for good. */
  function ResolveAuthority(reg: Registry, pid: ProjectId, probe: Probe): Outcome<Resolved> {
    if !Resolves(reg, pid, probe.canonical) then Outcome(reg, Err(ContextMismatch))
    else if !probe.layout then Outcome(reg, Err(LayoutUnresolved))
    else
      var e := reg.projects[pid];
      var current := TrustIsCurrent(e, probe);
      if !e.trust.Untrusted? && !current then
        Outcome(Mint(reg, pid, e.root, Untrusted, None, probe.identity),
                Ok(Resolved(e.root, Untrusted, probe.identity, |reg.log|)))
      else
        var e' := e.(observed := probe.identity, access := if e.observed != probe.identity then None else e.access);
        Outcome(reg.(projects := reg.projects[pid := e']),
                Ok(Resolved(e.root, if current then e.trust else Untrusted, probe.identity, e.revision)))
  }

  /** `revoke_trust`. */
  function RevokeTrust(reg: Registry, pid: ProjectId, asserted: Option<Root>): Outcome<()> {
    if !Resolves(reg, pid, asserted) then Outcome(reg, Err(ContextMismatch))
    else if reg.projects[pid].trust.Untrusted? then Outcome(reg, Ok(()))
    else Outcome(Mint(reg, pid, reg.projects[pid].root, Untrusted, None, reg.projects[pid].observed), Ok(()))
  }

  /** The end of `resolve_workflow_access_mode_locked`: cache what was observed. A
      view without Git inspection keeps the Git state of the previous one. */
  function StoreAccess(reg: Registry, pid: ProjectId, access: Access, inspectGit: bool): Registry {
    if pid !in reg.projects then reg
    else
      var e := reg.projects[pid];
      var observed := if !inspectGit && e.access.Some? then access.(git := e.access.value.git) else access;
      reg.(projects := reg.projects[pid := e.(access := Some(observed))])
  }

  datatype Overview = Overview(identity: Identity, trusted: bool, filesystem: FilesystemAccess, persistent: bool, git: GitState)

  /** `workflow_overview_access`: display only, from what is remembered. */
  function OverviewAccess(reg: Registry, pid: ProjectId, assertedKey: string): Result<Overview> {
    if pid !in reg.projects || reg.projects[pid].root.key != assertedKey || reg.projects[pid].observed.None?
    then Err(ContextMismatch)
    else
      var e := reg.projects[pid];
      var identity := e.observed.value;
      var trusted := && !e.trust.Untrusted? && e.trustedIdentity == Some(identity.revision)
                     && (e.access.Some? ==> e.access.value.trusted);
      Ok(if e.access.Some?
         then Overview(identity, trusted, e.access.value.filesystem, e.access.value.persistent, e.access.value.git)
         else Overview(identity, trusted, UnknownAccess, false, UnknownGit))
  }

  // ---- what every operation keeps ------------------------------------------------------

  datatype Operation =
    | RegisterOp(project: ProjectId, probe: Probe, requested: Trust, expected: Option<Identity>)
    | RelocateOp(project: ProjectId, previousKey: string, probe: Probe, recentUpdated: bool)
    | ResolveOp(project: ProjectId, probe: Probe)
    | RevokeOp(project: ProjectId, asserted: Option<Root>)
    | StoreOp(project: ProjectId, access: Access, inspectGit: bool)

  function Apply(reg: Registry, op: Operation): Registry {
    match op
    case RegisterOp(p, probe, requested, expected) => Register(reg, p, probe, requested, expected).registry
    case RelocateOp(p, previousKey, probe, recent) => Relocate(reg, p, previousKey, probe, recent).registry
    case ResolveOp(p, probe) => ResolveAuthority(reg, p, probe).registry
    case RevokeOp(p, asserted) => RevokeTrust(reg, p, asserted).registry
    case StoreOp(p, access, inspectGit) => StoreAccess(reg, p, access, inspectGit)
  }

  function Run(reg: Registry, ops: seq<Operation>): Registry {
    if ops == [] then reg else Apply(Run(reg, ops[..|ops| - 1]), ops[|ops| - 1])
  }

  /** An entry is what its revision was minted for, and nothing was minted for its
      project since. */
  ghost predicate EntryOk(reg: Registry, pid: ProjectId) {
    pid in reg.projects ==>
      var e := reg.projects[pid];
      && e.revision < |reg.log|
      && reg.log[e.revision] == Grant(pid, e.root, e.trust, e.trustedIdentity)
      && (forall r :: e.revision < r < |reg.log| ==> reg.log[r].project != pid)
      && (e.trust.Untrusted? <==> e.trustedIdentity.None?)
  }

  ghost predicate Valid(reg: Registry) {
    && (forall pid :: EntryOk(reg, pid))
    && (forall r :: 0 <= r < |reg.log| ==> reg.log[r].project in reg.projects)
  }

  // An operation either mints for its project or leaves every authority alone.
  lemma ApplyShape(reg: Registry, op: Operation)
    requires Valid(reg)
    ensures var reg' := Apply(reg, op);
            || (reg'.log == reg.log && forall pid :: SameAuthority(reg, reg', pid))
            || (&& |reg'.log| == |reg.log| + 1 && reg'.log[..|reg.log|] == reg.log
                && op.project in reg'.projects && reg'.projects[op.project].revision == |reg.log|
                && reg'.projects[op.project].access.None?
                && reg'.projects == reg.projects[op.project := reg'.projects[op.project]]
                && reg'.log[|reg.log|] == Grant(op.project, reg'.projects[op.project].root,
                     reg'.projects[op.project].trust, reg'.projects[op.project].trustedIdentity)
                && (reg'.projects[op.project].trust.Untrusted? <==> reg'.projects[op.project].trustedIdentity.None?))
  {
    assert EntryOk(reg, op.project);
  }

  /** Same registration, root, trust, trusted identity and revision. */
  predicate SameAuthority(a: Registry, b: Registry, pid: ProjectId) {
    && (pid in a.projects <==> pid in b.projects)
    && (pid in a.projects ==>
          var x, y := a.projects[pid], b.projects[pid];
          x.root == y.root && x.trust == y.trust && x.trustedIdentity == y.trustedIdentity && x.revision == y.revision)
  }

  lemma ApplyKeepsValid(reg: Registry, op: Operation)
    requires Valid(reg)
    ensures Valid(Apply(reg, op))
    ensures reg.log <= Apply(reg, op).log
  {
    ApplyShape(reg, op);
    var reg' := Apply(reg, op);
    forall p ensures EntryOk(reg', p) {
      assert EntryOk(reg, p);
      if reg'.log == reg.log { assert SameAuthority(reg, reg', p); }
    }
    if reg'.log == reg.log {
      forall r | 0 <= r < |reg'.log| ensures reg'.log[r].project in reg'.projects {
        assert SameAuthority(reg, reg', reg.log[r].project);
      }
    } else {
      assert reg'.log == reg'.log[..|reg.log|] + reg'.log[|reg.log|..];
    }
  }

  lemma {:induction false} RunKeepsValid(reg: Registry, ops: seq<Operation>)
    requires Valid(reg)
    ensures Valid(Run(reg, ops)) && reg.log <= Run(reg, ops).log
    decreases |ops|
  {
    if ops != [] {
      RunKeepsValid(reg, ops[..|ops| - 1]);
      ApplyKeepsValid(Run(reg, ops[..|ops| - 1]), ops[|ops| - 1]);
    }
  }

  /** Each change to a project's root, trust or trusted identity comes with a
      revision that was never used before. */
  lemma ChangesMintFreshRevisions(reg: Registry, op: Operation, pid: ProjectId)
    requires Valid(reg) && pid in reg.projects
    ensures var reg' := Apply(reg, op);
            && pid in reg'.projects
            && (reg'.projects[pid].revision == reg.projects[pid].revision <==> SameAuthority(reg, reg', pid))
            && (!SameAuthority(reg, reg', pid) ==> pid == op.project && reg'.projects[pid].revision == |reg.log|)
  {
    ApplyShape(reg, op);
    assert EntryOk(reg, pid);
    var reg' := Apply(reg, op);
    if reg'.log == reg.log { assert SameAuthority(reg, reg', pid); }
  }

  /** The operation grants trust to the project explicitly. */
  predicate Grants(op: Operation, pid: ProjectId) {
    op.project == pid && ((op.RegisterOp? && !op.requested.Untrusted?) || op.RelocateOp?) && op.probe.identity.Some?
  }

  predicate Trusted(reg: Registry, pid: ProjectId) {
    pid in reg.projects && !reg.projects[pid].trust.Untrusted?
  }

  /** Over every run: a project that was not trusted before and is trusted after has
      been granted trust by some operation of the run, for exactly the identity that
      operation measured, and nothing was minted for it since. */
  lemma {:induction false} LostTrustReturnsOnlyByGrant(reg: Registry, ops: seq<Operation>, pid: ProjectId) returns (i: nat)
    requires Valid(reg) && !Trusted(reg, pid) && Trusted(Run(reg, ops), pid)
    ensures i < |ops| && Grants(ops[i], pid)
    ensures Run(reg, ops).projects[pid].trustedIdentity == Some(ops[i].probe.identity.value.revision)
    ensures Run(reg, ops).projects[pid].revision == |Run(reg, ops[..i]).log|
    decreases |ops|
  {
    var n := |ops| - 1;
    var mid := Run(reg, ops[..n]);
    RunKeepsValid(reg, ops[..n]);
    if Trusted(mid, pid) && SameAuthority(mid, Run(reg, ops), pid) {
      i := LostTrustReturnsOnlyByGrant(reg, ops[..n], pid);
      assert ops[..n][..i] == ops[..i];
    } else {
      i := n;
      GainIsGrant(mid, ops[n], pid);
    }
  }

  lemma GainIsGrant(reg: Registry, op: Operation, pid: ProjectId)
    requires Valid(reg) && Trusted(Apply(reg, op), pid) && !(Trusted(reg, pid) && SameAuthority(reg, Apply(reg, op), pid))
    ensures Grants(op, pid) && Apply(reg, op).projects[pid].revision == |reg.log|
    ensures Apply(reg, op).projects[pid].trustedIdentity == Some(op.probe.identity.value.revision)
  {
    assert EntryOk(reg, pid);
  }

  /** A revision names one authority for ever: if a project has the same revision at
      two points of a run, it had the same root, trust and trusted identity at every
      point in between. */
  lemma {:induction false} RevisionDeterminesAuthority(reg: Registry, ops: seq<Operation>, pid: ProjectId, i: nat)
    requires Valid(reg) && pid in reg.projects && i <= |ops|
    requires pid in Run(reg, ops).projects && Run(reg, ops).projects[pid].revision == reg.projects[pid].revision
    ensures SameAuthority(reg, Run(reg, ops[..i]), pid)
  {
    RevisionIsMonotone(reg, ops[..i], pid);
    RunKeepsValid(reg, ops[..i]);
    var mid := Run(reg, ops[..i]);
    RunAppend(reg, ops[..i], ops[i..]);
    assert ops[..i] + ops[i..] == ops;
    RevisionIsMonotone(mid, ops[i..], pid);
    assert EntryOk(reg, pid) && EntryOk(mid, pid);
  }

  lemma {:induction false} RunAppend(reg: Registry, a: seq<Operation>, b: seq<Operation>)
    ensures Run(reg, a + b) == Run(Run(reg, a), b)
    decreases |b|
  {
    if b == [] {
      assert a + b == a;
    } else {
      assert (a + b)[..|a + b| - 1] == a + b[..|b| - 1];
      RunAppend(reg, a, b[..|b| - 1]);
    }
  }

  lemma {:induction false} RevisionIsMonotone(reg: Registry, ops: seq<Operation>, pid: ProjectId)
    requires Valid(reg) && pid in reg.projects
    ensures pid in Run(reg, ops).projects && Run(reg, ops).projects[pid].revision >= reg.projects[pid].revision
    decreases |ops|
  {
    if ops != [] {
      var mid := Run(reg, ops[..|ops| - 1]);
      RevisionIsMonotone(reg, ops[..|ops| - 1], pid);
      RunKeepsValid(reg, ops[..|ops| - 1]);
      ChangesMintFreshRevisions(mid, ops[|ops| - 1], pid);
      assert EntryOk(mid, pid);
    }
  }

  /** `require_current_execution_epoch`: the lease revision is compared with the
      authority resolved at commit time. */
  predicate CommitAllowed(resolved: Outcome<Resolved>, healthy: bool, leaseRevision: Revision) {
    && resolved.result.Ok? && healthy && !resolved.result.value.trust.Untrusted?
    && resolved.result.value.revision == leaseRevision
  }

  /** A result commit that passes the lease check proves that the project was
      trusted, at the same root and for the same directory identity, ever since the
      lease was taken. */
  lemma {:induction false} CommitProvesNoTransition(reg: Registry, ops: seq<Operation>, pid: ProjectId, probe: Probe, healthy: bool, i: nat)
    requires Valid(reg) && pid in reg.projects && i <= |ops|
    requires CommitAllowed(ResolveAuthority(Run(reg, ops), pid, probe), healthy, reg.projects[pid].revision)
    ensures SameAuthority(reg, Run(reg, ops[..i]), pid) && !reg.projects[pid].trust.Untrusted?
    ensures probe.identity.Some? && reg.projects[pid].trustedIdentity == Some(probe.identity.value.revision)
  {
    RunKeepsValid(reg, ops);
    var last := Run(reg, ops);
    assert EntryOk(last, pid) && EntryOk(reg, pid);
    RevisionIsMonotone(reg, ops, pid);
    RevisionDeterminesAuthority(reg, ops, pid, i);
    RevisionDeterminesAuthority(reg, ops, pid, |ops|);
    assert ops[..|ops|] == ops;
  }

  // ---- the cached snapshot and the overview -----------------------------------------------

  predicate CacheCurrentFor(reg: Registry, pid: ProjectId) {
    pid in reg.projects && reg.projects[pid].access.Some? ==>
      reg.projects[pid].access.value.revision == reg.projects[pid].revision
  }

  /** Every operation leaves a present snapshot at the current revision, except
      exactly a store whose revision has been overtaken since it was resolved. */
  lemma CacheStaysCurrent(reg: Registry, op: Operation, pid: ProjectId)
    requires Valid(reg) && CacheCurrentFor(reg, pid)
    ensures CacheCurrentFor(Apply(reg, op), pid) <==> !StoresOvertaken(reg, op, pid)
  {
  }

  /** The operation caches a snapshot that has been overtaken. */
  predicate StoresOvertaken(reg: Registry, op: Operation, pid: ProjectId) {
    op.StoreOp? && op.project == pid && pid in reg.projects && op.access.revision != reg.projects[pid].revision
  }

  /** Over every run: the cached snapshot is current at every point if and only if no
      step caches an overtaken one. */
  lemma {:induction false} CacheIsCurrentIffStoresAre(reg: Registry, ops: seq<Operation>, pid: ProjectId)
    requires Valid(reg) && CacheCurrentFor(reg, pid)
    ensures (forall i :: 0 <= i <= |ops| ==> CacheCurrentFor(Run(reg, ops[..i]), pid))
       <==> (forall i :: 0 <= i < |ops| ==> !StoresOvertaken(Run(reg, ops[..i]), ops[i], pid))
  {
    if forall i :: 0 <= i < |ops| ==> !StoresOvertaken(Run(reg, ops[..i]), ops[i], pid) {
      forall i | 0 <= i <= |ops| ensures CacheCurrentFor(Run(reg, ops[..i]), pid) {
        CurrentUpTo(reg, ops, pid, i);
      }
    } else {
      var i :| 0 <= i < |ops| && StoresOvertaken(Run(reg, ops[..i]), ops[i], pid);
      OvertakenIsCached(reg, ops, pid, i);
    }
  }

  lemma {:induction false} OvertakenIsCached(reg: Registry, ops: seq<Operation>, pid: ProjectId, i: nat)
    requires i < |ops| && StoresOvertaken(Run(reg, ops[..i]), ops[i], pid)
    ensures !CacheCurrentFor(Run(reg, ops[..i + 1]), pid)
  {
    assert ops[..i + 1][..i] == ops[..i];
  }

  lemma {:induction false} CurrentUpTo(reg: Registry, ops: seq<Operation>, pid: ProjectId, n: nat)
    requires Valid(reg) && CacheCurrentFor(reg, pid) && n <= |ops|
    requires forall i :: 0 <= i < |ops| ==> !StoresOvertaken(Run(reg, ops[..i]), ops[i], pid)
    ensures CacheCurrentFor(Run(reg, ops[..n]), pid)
    decreases n
  {
    if n > 0 {
      CurrentUpTo(reg, ops, pid, n - 1);
      RunKeepsValid(reg, ops[..n - 1]);
      assert ops[..n][..n - 1] == ops[..n - 1];
      CacheStaysCurrent(Run(reg, ops[..n - 1]), ops[n - 1], pid);
    }
  }

  /** The operation mints a revision for the project: a transition of its authority. */
  predicate Mints(reg: Registry, op: Operation, pid: ProjectId) {
    op.project == pid && |Apply(reg, op).log| > |reg.log|
  }

  /** No operation from position `i` to before `j` mints for the project. */
  predicate NoMintBetween(reg: Registry, ops: seq<Operation>, i: nat, j: nat, pid: ProjectId)
    requires i <= j <= |ops|
    decreases j
  {
    i == j || (NoMintBetween(reg, ops, i, j - 1, pid) && !Mints(Run(reg, ops[..j - 1]), ops[j - 1], pid))
  }

  lemma MintMovesRevision(reg: Registry, op: Operation, pid: ProjectId)
    requires Valid(reg) && pid in reg.projects
    ensures pid in Apply(reg, op).projects
    ensures Mints(reg, op, pid) ==> Apply(reg, op).projects[pid].revision == |reg.log|
    ensures !Mints(reg, op, pid) ==> Apply(reg, op).projects[pid].revision == reg.projects[pid].revision
  {
    ApplyShape(reg, op);
    assert EntryOk(reg, pid);
    if Apply(reg, op).log == reg.log { assert SameAuthority(reg, Apply(reg, op), pid); }
  }

  /** Between two points of a run the revision is the same if and only if nothing was
      minted for the project. */
  lemma {:induction false} RevisionKeptIffNoMint(reg: Registry, ops: seq<Operation>, i: nat, j: nat, pid: ProjectId)
    requires Valid(reg) && i <= j <= |ops| && pid in Run(reg, ops[..i]).projects
    ensures pid in Run(reg, ops[..j]).projects
    ensures Run(reg, ops[..j]).projects[pid].revision >= Run(reg, ops[..i]).projects[pid].revision
    ensures Run(reg, ops[..j]).projects[pid].revision == Run(reg, ops[..i]).projects[pid].revision
       <==> NoMintBetween(reg, ops, i, j, pid)
    decreases j
  {
    if i < j {
      RevisionKeptIffNoMint(reg, ops, i, j - 1, pid);
      RunKeepsValid(reg, ops[..j - 1]);
      assert ops[..j][..j - 1] == ops[..j - 1];
      assert EntryOk(Run(reg, ops[..j - 1]), pid);
      MintMovesRevision(Run(reg, ops[..j - 1]), ops[j - 1], pid);
    }
  }

  /** The store at `j` caches the revision that the resolve at `r` of the same run
      returned: the two ends of `resolve_workflow_access_mode_locked`. */
  predicate CachesResolve(reg: Registry, ops: seq<Operation>, r: nat, j: nat, pid: ProjectId)
    requires j < |ops|
  {
    && r < j && ops[r].ResolveOp? && ops[r].project == pid
    && var o := ResolveAuthority(Run(reg, ops[..r]), pid, ops[r].probe);
       o.result.Ok? && ops[j].StoreOp? && ops[j].project == pid && ops[j].access.revision == o.result.value.revision
  }

  lemma ResolveReturnsRevision(reg: Registry, pid: ProjectId, probe: Probe)
    requires ResolveAuthority(reg, pid, probe).result.Ok?
    ensures pid in ResolveAuthority(reg, pid, probe).registry.projects
    ensures ResolveAuthority(reg, pid, probe).registry.projects[pid].revision
         == ResolveAuthority(reg, pid, probe).result.value.revision
  {
  }

  lemma {:induction false} StoreOvertakenIffMinted(reg: Registry, ops: seq<Operation>, r: nat, j: nat, pid: ProjectId)
    requires Valid(reg) && j < |ops| && CachesResolve(reg, ops, r, j, pid)
    ensures StoresOvertaken(Run(reg, ops[..j]), ops[j], pid) <==> !NoMintBetween(reg, ops, r + 1, j, pid)
  {
    RunKeepsValid(reg, ops[..r]);
    assert ops[..r + 1][..r] == ops[..r];
    ResolveReturnsRevision(Run(reg, ops[..r]), pid, ops[r].probe);
    RevisionKeptIffNoMint(reg, ops, r + 1, j, pid);
  }

  /** Every store of the project caches what some resolve of the run returned. */
  ghost predicate StoresAreResolved(reg: Registry, ops: seq<Operation>, resolves: seq<nat>, pid: ProjectId) {
    |resolves| == |ops|
    && forall j :: 0 <= j < |ops| && StoresFor(ops[j], pid) ==> CachesResolve(reg, ops, resolves[j], j, pid)
  }

  predicate StoresFor(op: Operation, pid: ProjectId) { op.StoreOp? && op.project == pid }

  /** Nothing is minted for the project between a resolve and its store. */
  ghost predicate NothingMinted(reg: Registry, ops: seq<Operation>, resolves: seq<nat>, pid: ProjectId)
    requires StoresAreResolved(reg, ops, resolves, pid)
  {
    forall j :: 0 <= j < |ops| && StoresFor(ops[j], pid) ==> NoMintBetween(reg, ops, resolves[j] + 1, j, pid)
  }

  /** Over every run whose stores cache resolved revisions: the cached snapshot is
      current at every point if and only if nothing is minted for the project between
      a resolve and its store. */
  lemma {:induction false} CacheIsCurrentIffNothingMinted(reg: Registry, ops: seq<Operation>, resolves: seq<nat>, pid: ProjectId)
    requires Valid(reg) && CacheCurrentFor(reg, pid) && StoresAreResolved(reg, ops, resolves, pid)
    ensures (forall i :: 0 <= i <= |ops| ==> CacheCurrentFor(Run(reg, ops[..i]), pid)) <==> NothingMinted(reg, ops, resolves, pid)
  {
    CacheIsCurrentIffStoresAre(reg, ops, pid);
    if NothingMinted(reg, ops, resolves, pid) {
      forall j | 0 <= j < |ops| ensures !StoresOvertaken(Run(reg, ops[..j]), ops[j], pid) {
        if StoresFor(ops[j], pid) { StoreOvertakenIffMinted(reg, ops, resolves[j], j, pid); }
      }
    } else {
      var j :| 0 <= j < |ops| && StoresFor(ops[j], pid) && !NoMintBetween(reg, ops, resolves[j] + 1, j, pid);
      StoreOvertakenIffMinted(reg, ops, resolves[j], j, pid);
    }
  }

  /** Lane discipline: from a resolve to its store only other projects are worked on. */
  ghost predicate LaneKept(ops: seq<Operation>, resolves: seq<nat>, pid: ProjectId)
    requires |resolves| == |ops|
  {
    forall j, k :: 0 <= j < |ops| && StoresFor(ops[j], pid) && resolves[j] < k < j ==> ops[k].project != pid
  }

  /** Under lane discipline the cached snapshot always carries the current revision. */
  lemma {:induction false} LaneKeepsCacheCurrent(reg: Registry, ops: seq<Operation>, resolves: seq<nat>, pid: ProjectId)
    requires Valid(reg) && CacheCurrentFor(reg, pid) && StoresAreResolved(reg, ops, resolves, pid) && LaneKept(ops, resolves, pid)
    ensures forall i :: 0 <= i <= |ops| ==> CacheCurrentFor(Run(reg, ops[..i]), pid)
  {
    forall j | 0 <= j < |ops| && StoresFor(ops[j], pid)
      ensures NoMintBetween(reg, ops, resolves[j] + 1, j, pid)
    {
      OthersDoNotMint(reg, ops, resolves[j] + 1, j, pid);
    }
    CacheIsCurrentIffNothingMinted(reg, ops, resolves, pid);
  }

  lemma {:induction false} OthersDoNotMint(reg: Registry, ops: seq<Operation>, i: nat, j: nat, pid: ProjectId)
    requires i <= j <= |ops| && forall k :: i <= k < j ==> ops[k].project != pid
    ensures NoMintBetween(reg, ops, i, j, pid)
    decreases j
  {
    if i < j { OthersDoNotMint(reg, ops, i, j - 1, pid); }
  }

  /** Outside the lane it goes stale: whenever another caller resolves the project
      between the resolve and the store and no longer finds the grant current, whatever
      has changed on disk, the stored snapshot names a revision that was withdrawn. */
  lemma {:induction false} OutsideLaneCacheGoesStale(reg: Registry, pid: ProjectId, probe: Probe, drifted: Probe, access: Access, inspectGit: bool)
    requires Valid(reg) && ResolveAuthority(reg, pid, probe).result.Ok?
    requires !ResolveAuthority(reg, pid, probe).result.value.trust.Untrusted?
    requires access.revision == ResolveAuthority(reg, pid, probe).result.value.revision
    requires drifted.canonical == probe.canonical && drifted.layout
    requires !TrustIsCurrent(ResolveAuthority(reg, pid, probe).registry.projects[pid], drifted)
    ensures var after := Run(reg, [ResolveOp(pid, probe), ResolveOp(pid, drifted), StoreOp(pid, access, inspectGit)]);
            !CacheCurrentFor(after, pid) && pid in after.projects && after.projects[pid].trust.Untrusted?
  {
    var first, second, store := ResolveOp(pid, probe), ResolveOp(pid, drifted), StoreOp(pid, access, inspectGit);
    assert [first][..0] == [] && [first, second][..1] == [first] && [first, second, store][..2] == [first, second];
    assert Run(reg, [first]) == Apply(reg, first);
    assert Run(reg, [first, second]) == Apply(Apply(reg, first), second);
    assert EntryOk(reg, pid);
  }

  /** The overview reports trust only for a project that is trusted now and whose
      observed directory is the one the grant was made for. */
  lemma OverviewTrustIsGranted(reg: Registry, pid: ProjectId, assertedKey: string)
    requires Valid(reg) && OverviewAccess(reg, pid, assertedKey).Ok? && OverviewAccess(reg, pid, assertedKey).value.trusted
    ensures pid in reg.projects
    ensures var e := reg.projects[pid];
            && e.revision < |reg.log|
            && reg.log[e.revision].project == pid && !reg.log[e.revision].trust.Untrusted?
            && reg.log[e.revision].trustedIdentity == Some(OverviewAccess(reg, pid, assertedKey).value.identity.revision)
  {
    assert EntryOk(reg, pid);
  }

  // ---- what each operation answers, in the terms of its inputs -------------------------------

  /** Nothing but the entry of one project has changed. */
  predicate OthersKept(a: Registry, b: Registry, pid: ProjectId) {
    a.projects - {pid} == b.projects - {pid}
  }

  /** A resolve answers exactly for the registered root with a resolvable layout. Then
      the grant stands if and only if there was none, or the directory still has the
      identity it was made for and the layout its level asks for: a native grant the
      strict native one, a compatible grant a compatible one. Otherwise it is withdrawn
      under a fresh revision. */
  lemma ResolveKeepsTrustIff(reg: Registry, pid: ProjectId, probe: Probe)
    requires Valid(reg)
    ensures var o := ResolveAuthority(reg, pid, probe);
            var found := pid in reg.projects && probe.canonical == Some(reg.projects[pid].root);
            && (o.result.Ok? <==> found && probe.layout)
            && (!o.result.Ok? ==> o.registry == reg && o.result.error == if found then LayoutUnresolved else ContextMismatch)
            && (o.result.Ok? ==>
                  var e, e', r := reg.projects[pid], o.registry.projects[pid], o.result.value;
                  var stands := e.trust.Untrusted?
                                || (&& probe.identity.Some? && e.trustedIdentity == Some(probe.identity.value.revision)
                                    && (e.trust.TrustedNative? ==> probe.strictNative)
                                    && (e.trust.TrustedCompatible? ==> probe.compatible));
                  && OthersKept(reg, o.registry, pid) && pid in o.registry.projects
                  && e'.root == e.root == r.root && e'.observed == probe.identity == r.identity
                  && (stands <==> e'.trust == e.trust && e'.revision == e.revision && r.trust == e.trust && r.revision == e.revision)
                  && (stands ==> e'.trustedIdentity == e.trustedIdentity && o.registry.log == reg.log
                                 && e'.access == if e.observed == probe.identity then e.access else None)
                  && (!stands ==> e'.trust == Untrusted == r.trust && e'.trustedIdentity.None? && e'.access.None?
                                  && e'.revision == |reg.log| == r.revision))
  {
    assert EntryOk(reg, pid);
  }

  /** A result may be committed under a lease if and only if the project is healthy, still
      trusted under the lease's revision, and its directory resolves with the identity and
      the layout of the grant. */
  lemma CommitIsAllowedIff(reg: Registry, pid: ProjectId, probe: Probe, healthy: bool, lease: Revision)
    requires Valid(reg) && lease < |reg.log|
    ensures CommitAllowed(ResolveAuthority(reg, pid, probe), healthy, lease) <==>
            && healthy && pid in reg.projects && probe.layout && probe.canonical == Some(reg.projects[pid].root)
            && var e := reg.projects[pid];
               && e.trust != Untrusted && e.revision == lease
               && probe.identity.Some? && e.trustedIdentity == Some(probe.identity.value.revision)
               && (if e.trust.TrustedNative? then probe.strictNative else probe.compatible)
  {
    ResolveKeepsTrustIff(reg, pid, probe);
    assert EntryOk(reg, pid);
  }

  /** A registration changes something exactly if the path is absolute and canonical, the
      layout fits the level asked for, the identity can be measured and is the expected
      one where trust is asked for, and the project is not registered elsewhere. */
  lemma RegisterMeans(reg: Registry, pid: ProjectId, probe: Probe, requested: Trust, expected: Option<Identity>)
    ensures var o := Register(reg, pid, probe, requested, expected);
            var layoutFits := (requested.TrustedNative? ==> probe.strictNative) && (requested.TrustedCompatible? ==> probe.compatible);
            var measured := requested.Untrusted? || probe.identity.Some?;
            var isExpected := requested.Untrusted? || expected.None? || probe.identity == expected;
            var pathFits := probe.absolute && probe.canonical.Some?;
            var elsewhere := pathFits && pid in reg.projects && reg.projects[pid].root != probe.canonical.value;
            && (!pathFits ==> o.result == Err(PathInvalid))
            && (pathFits && !layoutFits ==> o.result == Err(TrustAuthorityInvalid))
            && (pathFits && layoutFits && !measured ==> o.result == Err(IdentityFailed))
            && (pathFits && layoutFits && measured && !isExpected ==> o.result == Err(TrustAuthorityInvalid))
            && (pathFits && layoutFits && measured && isExpected && elsewhere ==> o.result == Err(ContextMismatch))
            && (!(pathFits && layoutFits && measured && isExpected) || elsewhere ==> o.registry == reg)
            && (pathFits && layoutFits && measured && isExpected && !elsewhere ==>
                  && o.result == (if probe.layout then Ok(probe.canonical.value) else Err(LayoutUnresolved))
                  && OthersKept(reg, o.registry, pid) && pid in o.registry.projects
                  && var e' := o.registry.projects[pid];
                     && e'.root == probe.canonical.value && e'.observed == probe.observedAgain && e'.access.None?
                     && (requested.Untrusted? && pid in reg.projects ==> SameAuthority(reg, o.registry, pid))
                     && (!requested.Untrusted? || pid !in reg.projects ==>
                           && e'.trust == requested && e'.revision == |reg.log|
                           && e'.trustedIdentity == if requested.Untrusted? then None else Some(probe.identity.value.revision)))
  {
  }

  /** A relocation succeeds exactly for a strict native target whose identity can be
      measured, from the root it is known under, once the recent list is updated. */
  lemma RelocateMeans(reg: Registry, pid: ProjectId, previousKey: string, probe: Probe, recentUpdated: bool)
    ensures var o := Relocate(reg, pid, previousKey, probe, recentUpdated);
            && (o.result.Ok? <==> probe.canonical.Some? && probe.strictNative && probe.identity.Some? && recentUpdated
                                  && (pid in reg.projects ==> reg.projects[pid].root.key == previousKey))
            && (!o.result.Ok? ==> o.registry == reg)
            && (o.result.Ok? ==>
                  && OthersKept(reg, o.registry, pid) && pid in o.registry.projects
                  && o.registry.projects[pid] == Entry(probe.canonical.value, TrustedNative, Some(probe.identity.value.revision),
                                                       probe.identity, None, |reg.log|))
  {
  }

  /** A revocation succeeds exactly for the registered root; afterwards the project is
      untrusted, under a fresh revision if it was trusted. */
  lemma RevokeMeans(reg: Registry, pid: ProjectId, asserted: Option<Root>)
    requires Valid(reg)
    ensures var o := RevokeTrust(reg, pid, asserted);
            && (o.result.Ok? <==> pid in reg.projects && asserted == Some(reg.projects[pid].root))
            && (!o.result.Ok? ==> o.registry == reg)
            && (o.result.Ok? ==>
                  var e, e' := reg.projects[pid], o.registry.projects[pid];
                  && OthersKept(reg, o.registry, pid) && e'.root == e.root && e'.trust == Untrusted && e'.trustedIdentity.None?
                  && e'.revision == if e.trust == Untrusted then e.revision else |reg.log|)
  {
    assert EntryOk(reg, pid);
  }

  /** The overview speaks of a registered, observed root, and reports trust if and only
      if the project is trusted for the identity last observed and the cached snapshot,
      when there is one, does not say otherwise. */
  lemma OverviewMeans(reg: Registry, pid: ProjectId, assertedKey: string)
    ensures var o := OverviewAccess(reg, pid, assertedKey);
            && (o.Ok? <==> pid in reg.projects && reg.projects[pid].root.key == assertedKey && reg.projects[pid].observed.Some?)
            && (o.Ok? ==>
                  var e := reg.projects[pid];
                  && o.value.identity == e.observed.value
                  && (o.value.trusted <==> e.trust != Untrusted && e.trustedIdentity == Some(e.observed.value.revision)
                                           && (e.access.None? || e.access.value.trusted))
                  && (e.access.Some? ==> o.value.filesystem == e.access.value.filesystem
                                         && o.value.persistent == e.access.value.persistent && o.value.git == e.access.value.git)
                  && (e.access.None? ==> o.value.filesystem == UnknownAccess && !o.value.persistent && o.value.git == UnknownGit))
  {
  }

  /** A stored snapshot is the one given, but without a Git inspection the Git state
      known before is kept. */
  lemma StoreMeans(reg: Registry, pid: ProjectId, access: Access, inspectGit: bool)
    requires pid in reg.projects
    ensures var before, after := reg.projects[pid].access, StoreAccess(reg, pid, access, inspectGit).projects[pid].access;
            && after.Some? && after.value.trusted == access.trusted && after.value.revision == access.revision
            && after.value.filesystem == access.filesystem && after.value.persistent == access.persistent
            && after.value.git == (if inspectGit || before.None? then access.git else before.value.git)
  {
  }

  // ---- the registry object --------------------------------------------------------------------

  class ProjectTable {
    var projects: map<ProjectId, Entry>
    /** Number of authority revisions handed out; the next one is fresh. */
    var minted: nat
    ghost var log: seq<Grant>

    ghost function Model(): Registry
      reads this
    {
      Registry(projects, log)
    }

    ghost predicate Consistent()
      reads this
    {
      Valid(Model()) && minted == |log|
    }

    constructor ()
      ensures Consistent() && Model() == EMPTY
    {
      projects, minted, log := map[], 0, [];
    }

    method MintRevision(ghost grant: Grant) returns (revision: Revision)
      requires minted == |log|
      modifies `minted, `log
      ensures revision == old(|log|) && log == old(log) + [grant] && minted == |log|
    {
      revision := minted;
      minted := minted + 1;
      log := log + [grant];
    }

    method RegisterWithExpectedAuthority(pid: ProjectId, probe: Probe, requested: Trust, expected: Option<Identity>)
      returns (result: Result<Root>)
      requires Consistent()
      modifies this
      ensures Consistent()
      ensures Model() == Register(old(Model()), pid, probe, requested, expected).registry
      ensures result == Register(old(Model()), pid, probe, requested, expected).result
    {
      ApplyKeepsValid(Model(), RegisterOp(pid, probe, requested, expected));
      var checked := CheckRegistration(probe, requested, expected);
      if checked.Err? { return checked; }
      var root := checked.value;
      var identity := if requested.Untrusted? then None else Some(probe.identity.value.revision);
      if pid in projects {
        var registered := projects[pid];
        if registered.root != root { return Err(ContextMismatch); }
        registered := registered.(observed := probe.observedAgain, access := None);
        if !requested.Untrusted? {
          var revision := MintRevision(Grant(pid, root, requested, identity));
          registered := registered.(trust := requested, trustedIdentity := identity, revision := revision);
        }
        projects := projects[pid := registered];
      } else {
        var revision := MintRevision(Grant(pid, root, requested, identity));
        projects := projects[pid := Entry(root, requested, identity, probe.observedAgain, None, revision)];
      }
      return if probe.layout then Ok(root) else Err(LayoutUnresolved);
    }

    method RelocateTrustedNative(pid: ProjectId, previousKey: string, probe: Probe, recentUpdated: bool)
      returns (result: Result<Root>)
      requires Consistent()
      modifies this
      ensures Consistent()
      ensures Model() == Relocate(old(Model()), pid, previousKey, probe, recentUpdated).registry
      ensures result == Relocate(old(Model()), pid, previousKey, probe, recentUpdated).result
    {
      ApplyKeepsValid(Model(), RelocateOp(pid, previousKey, probe, recentUpdated));
      if probe.canonical.None? { return Err(PathInvalid); }
      if !probe.strictNative { return Err(TrustAuthorityInvalid); }
      if probe.identity.None? { return Err(IdentityFailed); }
      var root, identity := probe.canonical.value, Some(probe.identity.value.revision);
      if pid in projects && projects[pid].root.key != previousKey { return Err(ContextMismatch); }
      if !recentUpdated { return Err(RecentUpdateFailed); }
      var revision := MintRevision(Grant(pid, root, TrustedNative, identity));
      projects := projects[pid := Entry(root, TrustedNative, identity, probe.identity, None, revision)];
      return Ok(root);
    }

    method ResolveProjectAuthority(pid: ProjectId, probe: Probe) returns (result: Result<Resolved>)
      requires Consistent()
      modifies this
      ensures Consistent()
      ensures Model() == ResolveAuthority(old(Model()), pid, probe).registry
      ensures result == ResolveAuthority(old(Model()), pid, probe).result
    {
      ApplyKeepsValid(Model(), ResolveOp(pid, probe));
      if probe.canonical.None? || pid !in projects || projects[pid].root != probe.canonical.value {
        return Err(ContextMismatch);
      }
      if !probe.layout { return Err(LayoutUnresolved); }
      var registered := projects[pid];
      var current := TrustIsCurrent(registered, probe);
      if registered.observed != probe.identity { registered := registered.(access := None); }
      registered := registered.(observed := probe.identity);
      if !registered.trust.Untrusted? && !current {
        var revision := MintRevision(Grant(pid, registered.root, Untrusted, None));
        registered := registered.(trust := Untrusted, access := None, trustedIdentity := None, revision := revision);
      }
      projects := projects[pid := registered];
      var trust := if current then registered.trust else Untrusted;
      return Ok(Resolved(registered.root, trust, probe.identity, registered.revision));
    }

    method RevokeProjectTrust(pid: ProjectId, asserted: Option<Root>) returns (result: Result<()>)
      requires Consistent()
      modifies this
      ensures Consistent()
      ensures Model() == RevokeTrust(old(Model()), pid, asserted).registry
      ensures result == RevokeTrust(old(Model()), pid, asserted).result
    {
      ApplyKeepsValid(Model(), RevokeOp(pid, asserted));
      if asserted.None? || pid !in projects || projects[pid].root != asserted.value { return Err(ContextMismatch); }
      var registered := projects[pid];
      if !registered.trust.Untrusted? {
        var revision := MintRevision(Grant(pid, registered.root, Untrusted, None));
        projects := projects[pid := registered.(trust := Untrusted, access := None, trustedIdentity := None, revision := revision)];
      }
      return Ok(());
    }
  }
}
